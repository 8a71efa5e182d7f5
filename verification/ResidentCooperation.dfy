/**
 What a loop reaches when its environment cooperates: a call whose ports answer
 without rejection runs to the end, and every segment that the payload builders
 can make is written by some completed call. The results about completed calls
 are therefore about something, and they describe its segments exactly.
 */
module ResidentCooperation {
  import opened CanonicalJson
  import opened ResidentBudget
  import opened ResidentRecords
  import opened ResidentReplay
  import opened ResidentLoop
  import Completion = ResidentLoopCompletion

  // ---------- One round: a port answers, the answer is taken up and reverified ----------

  lemma {:induction false} Bounded(issued: set<Token>) returns (bound: Token)
    ensures forall t | t in issued :: t < bound
  {
    if issued == {} {
      bound := 0;
    } else {
      var t :| t in issued;
      var rest := issued - {t};
      bound := Bounded(rest);
      if bound <= t { bound := t + 1; }
      assert forall x | x in issued :: x == t || x in rest;
    }
  }

  lemma Extend(ctx: Context, ws: seq<World>, ss: seq<StepLabel>, s: StepLabel)
    requires Run(ctx, ws, ss) && Enabled(ctx, ws[|ss|], s)
    ensures Run(ctx, ws + [Apply(ctx, ws[|ss|], s)], ss + [s])
  {
    var more, steps := ws + [Apply(ctx, ws[|ss|], s)], ss + [s];
    assert more[0] == ws[0];
    forall i | 0 <= i < |steps| ensures Enabled(ctx, more[i], steps[i]) && more[i + 1] == Apply(ctx, more[i], steps[i]) {
      if i < |ss| { assert more[i] == ws[i] && more[i + 1] == ws[i + 1] && steps[i] == ss[i]; }
    }
  }

  /** The world is one where the call waits for the port, with these locals and this stream. */
  predicate Waiting(w: World, mode: Mode, port: Port, l: Locals, ledger: seq<Event>) {
    w.loop.token.Some? && w.loop.call == Active(mode, AtPort(port, None), l) && w.ledger == ledger
  }

  predicate Checking(w: World, mode: Mode, port: Port, reply: Reply, l: Locals, ledger: seq<Event>) {
    w.loop == Loop(None, Active(mode, AtReverify(port, reply), l)) && w.ledger == ledger
  }

  ghost predicate ReachesWaiting(ctx: Context, mode: Mode, port: Port, l: Locals, ledger: seq<Event>) {
    exists ws: seq<World>, ss: seq<StepLabel> :: Run(ctx, ws, ss) && Waiting(ws[|ss|], mode, port, l, ledger)
  }

  ghost predicate ReachesChecking(ctx: Context, mode: Mode, port: Port, reply: Reply, l: Locals, ledger: seq<Event>) {
    exists ws: seq<World>, ss: seq<StepLabel> :: Run(ctx, ws, ss) && Checking(ws[|ss|], mode, port, reply, l, ledger)
  }

  lemma AnsweredAndDelivered(
      ctx: Context, w: World, mode: Mode, port: Port, l: Locals, ledger: seq<Event>, reply: Reply, appended: seq<Event>)
    requires Waiting(w, mode, port, l, ledger) && PortMayAnswer(ctx, port, l, ledger, reply, appended)
    requires reply.Rejected? ==> Caught(mode, port)
    ensures Enabled(ctx, w, Answer(reply, appended))
    ensures var t := Apply(ctx, w, Answer(reply, appended));
            Enabled(ctx, t, Deliver) && Checking(Apply(ctx, t, Deliver), mode, port, reply, l, ledger + appended)
  {
  }

  lemma Answered(ctx: Context, mode: Mode, port: Port, l: Locals, ledger: seq<Event>, reply: Reply, appended: seq<Event>)
    requires ReachesWaiting(ctx, mode, port, l, ledger)
    requires PortMayAnswer(ctx, port, l, ledger, reply, appended) && (reply.Rejected? ==> Caught(mode, port))
    ensures ReachesChecking(ctx, mode, port, reply, l, ledger + appended)
  {
    var ws: seq<World>, ss: seq<StepLabel> :| Run(ctx, ws, ss) && Waiting(ws[|ss|], mode, port, l, ledger);
    var answer := Answer(reply, appended);
    AnsweredAndDelivered(ctx, ws[|ss|], mode, port, l, ledger, reply, appended);
    Extend(ctx, ws, ss, answer);
    var more, steps := ws + [Apply(ctx, ws[|ss|], answer)], ss + [answer];
    Extend(ctx, more, steps, Deliver);
    assert Checking((more + [Apply(ctx, more[|steps|], Deliver)])[|steps| + 1], mode, port, reply, l, ledger + appended);
  }

  lemma ContinueAsks(ctx: Context, w: World, mode: Mode, port: Port, reply: Reply, l: Locals, ledger: seq<Event>, m: Move, next: Token)
    requires Checking(w, mode, port, reply, l, ledger)
    requires m == After(ctx, mode, port, reply, l) && m.Ask?
    ensures Waiting(Continue(ctx, w, next), mode, m.port, m.locals, ledger)
  {
  }

  lemma Reverifies(ctx: Context, mode: Mode, port: Port, reply: Reply, l: Locals, ledger: seq<Event>, m: Move)
    requires ReachesChecking(ctx, mode, port, reply, l, ledger)
    requires m == After(ctx, mode, port, reply, l) && m.Ask?
    ensures ReachesWaiting(ctx, mode, m.port, m.locals, ledger)
  {
    var ws: seq<World>, ss: seq<StepLabel> :| Run(ctx, ws, ss) && Checking(ws[|ss|], mode, port, reply, l, ledger);
    var next := Bounded(ws[|ss|].issued);
    var step := Reverified(Some(next));
    Extend(ctx, ws, ss, step);
    ContinueAsks(ctx, ws[|ss|], mode, port, reply, l, ledger, m, next);
    assert Waiting((ws + [Apply(ctx, ws[|ss|], step)])[|ss| + 1], mode, m.port, m.locals, ledger);
  }

  /** A read that answers leads to the next request. */
  lemma Round(ctx: Context, mode: Mode, port: Port, l: Locals, ledger: seq<Event>, reply: Reply, m: Move)
    requires ReachesWaiting(ctx, mode, port, l, ledger)
    requires PortMayAnswer(ctx, port, l, ledger, reply, []) && (reply.Rejected? ==> Caught(mode, port))
    requires m == After(ctx, mode, port, reply, l) && m.Ask?
    ensures ReachesWaiting(ctx, mode, m.port, m.locals, ledger)
  {
    Answered(ctx, mode, port, l, ledger, reply, []);
    assert ledger + [] == ledger;
    Reverifies(ctx, mode, port, reply, l, ledger, m);
  }

  // ---------- Writing one event ----------

  lemma AppendAccepted(ctx: Context, mode: Mode, slot: Slot, e: Event, l: Locals)
    requires EventWellFormed(e) && e.payload == l.pending
    ensures After(ctx, mode, Append(slot), EventReply(e), l) == Ask(ReadBack(slot), l.(event := e))
  {
  }

  lemma ReadBackAccepted(ctx: Context, mode: Mode, slot: Slot, e: Event, l: Locals)
    requires EventWellFormed(e) && e == l.event
    ensures After(ctx, mode, ReadBack(slot), EventReply(e), l) == AfterSlot(mode, slot, e, l)
  {
  }

  /** The event is appended as it was asked for, and read back. */
  lemma WritesAndReads(ctx: Context, mode: Mode, slot: Slot, l: Locals, ledger: seq<Event>, e: Event)
    requires ReachesWaiting(ctx, mode, Append(slot), l, ledger) && EventWellFormed(e) && e.payload == l.pending
    ensures ReachesChecking(ctx, mode, ReadBack(slot), EventReply(e), l.(event := e), ledger + [e])
  {
    Answered(ctx, mode, Append(slot), l, ledger, EventReply(e), [e]);
    AppendAccepted(ctx, mode, slot, e, l);
    Reverifies(ctx, mode, Append(slot), EventReply(e), l, ledger + [e], Ask(ReadBack(slot), l.(event := e)));
    Answered(ctx, mode, ReadBack(slot), l.(event := e), ledger + [e], EventReply(e), []);
    assert ledger + [e] + [] == ledger + [e];
  }

  lemma Writes(ctx: Context, mode: Mode, slot: Slot, l: Locals, ledger: seq<Event>, e: Event, m: Move)
    requires ReachesWaiting(ctx, mode, Append(slot), l, ledger) && EventWellFormed(e) && e.payload == l.pending
    requires m == AfterSlot(mode, slot, e, l.(event := e)) && m.Ask?
    ensures ReachesWaiting(ctx, mode, m.port, m.locals, ledger + [e])
  {
    WritesAndReads(ctx, mode, slot, l, ledger, e);
    ReadBackAccepted(ctx, mode, slot, e, l.(event := e));
    Reverifies(ctx, mode, ReadBack(slot), EventReply(e), l.(event := e), ledger + [e], m);
  }

  // ---------- From the candidate to the result ----------

  /** The gateway's answers to one step: its request, the decision if one is needed, and the completed record. */
  datatype Gateway = Gateway(requested: Issued, requestedMaterial: Material, decision: Issued, completed: Issued)

  /** The gateway has issued a request for the binding, and where a human decides, the approval. */
  predicate MayExecute(mode: Mode, b: Binding, g: Gateway) {
    && MaterialValid(g.requestedMaterial, g.requested, b)
    && (if mode == Resuming then g.requested.stage == Requested
        else g.requested.authorization == AutomaticPolicy || (g.requested.authorization == HumanApproval && g.decision.stage == HumanApproved))
  }

  predicate GatewayAnswers(mode: Mode, b: Binding, m: Material, g: Gateway) {
    MayExecute(mode, b, g) && g.completed.stage == Completed && MaterialValid(m, g.completed, b)
  }

  lemma CandidateCreated(ctx: Context, mode: Mode, l: Locals)
    requires CandidateWellFormed(l.candidate) && BindingInputReadable(l.proposed)
    ensures After(ctx, mode, CreateCandidate, CandidateReply(l.candidate), l) == Ask(PrepareBindings, l)
  {
  }

  lemma BindingsPrepared(ctx: Context, mode: Mode, b: Binding, l: Locals, plan: Plan)
    requires BoundOk(l.proposed, b, plan)
    requires mode == Resuming ==> Advance(BudgetOf(l.recovery.payload), PlanRevisions) == Some(plan.budget)
    ensures After(ctx, mode, PrepareBindings, BindingsReply([b]), l) ==
            Ask(Append(PlanSlot), l.(plan := plan, binding := b, pending := PlanRecorded(plan)))
  {
  }

  lemma PlanWritten(mode: Mode, e: Event, p: Payload, l: Locals)
    requires ContextPart(l.plan, e.id, p)
    ensures AfterSlot(mode, PlanSlot, e, l) == Ask(Append(ContextSlot), l.(planEvent := e, pending := p))
  {
  }

  lemma ToolRequested(ctx: Context, mode: Mode, g: Gateway, l: Locals)
    requires MayExecute(mode, l.binding, g)
    ensures After(ctx, mode, RequestTool, IssuedReply(g.requested, Some(g.requestedMaterial)), l) ==
            Ask(if mode == Advancing && g.requested.authorization == HumanApproval then ReadDecision else ExecuteTool,
                l.(requested := g.requested, current := g.requested, material := g.requestedMaterial))
  {
  }

  lemma Decided(ctx: Context, mode: Mode, g: Gateway, l: Locals)
    requires g.decision.stage == HumanApproved
    ensures After(ctx, mode, ReadDecision, IssuedReply(g.decision, None), l) == Ask(ExecuteTool, l.(approved := Some(g.decision)))
  {
  }

  lemma ToolExecuted(ctx: Context, mode: Mode, g: Gateway, m: Material, l: Locals, p: Payload)
    requires GatewayAnswers(mode, l.binding, m, g)
    requires ToolPart(l.plan, l.planEvent.id, BudgetOf(l.contextEvent.payload), m, Completed, KeyOfBinding(l.binding), p)
    ensures After(ctx, mode, ExecuteTool, IssuedReply(g.completed, Some(m)), l) ==
            Ask(Append(ToolSlot), l.(current := g.completed, material := m, pending := p))
  {
  }

  lemma ToolWritten(mode: Mode, e: Event, p: Payload, l: Locals)
    requires FinalPart(l.plan, l.planEvent.id, e, l.material, KeyOfBinding(l.binding), p)
    ensures AfterSlot(mode, ToolSlot, e, l) == Ask(Append(FinalSlot), l.(toolEvent := e, pending := p))
  {
  }

  lemma FinalWritten(mode: Mode, e: Event, l: Locals)
    requires l.current.stage == Completed
    ensures AfterSlot(mode, FinalSlot, e, l) == Ask(ReadHandoff(false), l.(finalEvent := e))
  {
  }

  lemma HandoffRead(ctx: Context, mode: Mode, p: HandoffProjection, l: Locals, result: Payload)
    requires HandoffVerified(p, l.plan.provenance.identity, l.plan.provenance.authority)
    requires ResultPart(l.plan, l.planEvent.id, l.finalEvent, result) && result.result.body.handoff == p.selectedReadback
    ensures After(ctx, mode, ReadHandoff(false), HandoffReply(p), l) == Ask(Append(ResultSlot), l.(pending := result))
  {
  }

  /**
   The environment answers this call's requests as a completed call needs: with
   the candidate, one matching binding, the gateway's records and material, the
   verified handoff, and the segment's events for those to be appended.
   */
  predicate Cooperates(ctx: Context, mode: Mode, start: Locals, events: seq<Event>, b: Binding, m: Material, g: Gateway, p: HandoffProjection) {
    && WrittenByAdvance(events, start.proposed, b, m, p.selectedReadback)
    && (forall e | e in events :: EventWellFormed(e))
    && CandidateWellFormed(start.candidate)
    && (mode == Resuming ==> Advance(BudgetOf(start.recovery.payload), PlanRevisions) == Some(BudgetOf(events[0].payload)))
    && GatewayAnswers(mode, b, m, g)
    && HandoffVerified(p, start.proposed.provenance.identity, start.proposed.provenance.authority)
  }

  lemma BindingIsReadable(proposed: Plan, b: Binding, plan: Plan)
    requires BoundOk(proposed, b, plan)
    ensures BindingInputReadable(proposed) && plan.provenance == proposed.provenance
  {
  }

  lemma ReachesPlan(ctx: Context, mode: Mode, start: Locals, base: seq<Event>, b: Binding, plan: Plan) returns (l: Locals)
    requires ReachesWaiting(ctx, mode, CreateCandidate, start, base)
    requires CandidateWellFormed(start.candidate) && BoundOk(start.proposed, b, plan)
    requires mode == Resuming ==> Advance(BudgetOf(start.recovery.payload), PlanRevisions) == Some(plan.budget)
    ensures l == start.(plan := plan, binding := b, pending := PlanRecorded(plan))
    ensures ReachesWaiting(ctx, mode, Append(PlanSlot), l, base)
  {
    BindingIsReadable(start.proposed, b, plan);
    CandidateCreated(ctx, mode, start);
    Round(ctx, mode, CreateCandidate, start, base, CandidateReply(start.candidate), Ask(PrepareBindings, start));
    l := start.(plan := plan, binding := b, pending := PlanRecorded(plan));
    BindingsPrepared(ctx, mode, b, start, plan);
    Round(ctx, mode, PrepareBindings, start, base, BindingsReply([b]), Ask(Append(PlanSlot), l));
  }

  lemma ReachesRequest(ctx: Context, mode: Mode, first: Locals, base: seq<Event>, plan: Event, seen: Event) returns (l: Locals)
    requires ReachesWaiting(ctx, mode, Append(PlanSlot), first, base)
    requires EventWellFormed(plan) && plan.payload == first.pending && EventWellFormed(seen)
    requires ContextPart(first.plan, plan.id, seen.payload)
    ensures l == first.(event := seen, planEvent := plan, contextEvent := seen, pending := seen.payload)
    ensures ReachesWaiting(ctx, mode, RequestTool, l, base + [plan] + [seen])
  {
    var second := first.(event := plan, planEvent := plan, pending := seen.payload);
    PlanWritten(mode, plan, seen.payload, first.(event := plan));
    Writes(ctx, mode, PlanSlot, first, base, plan, Ask(Append(ContextSlot), second));
    l := second.(event := seen, contextEvent := seen);
    Writes(ctx, mode, ContextSlot, second, base + [plan], seen, Ask(RequestTool, l));
  }

  lemma ReachesExecution(ctx: Context, mode: Mode, l: Locals, ledger: seq<Event>, g: Gateway) returns (r: Locals)
    requires ReachesWaiting(ctx, mode, RequestTool, l, ledger) && MayExecute(mode, l.binding, g)
    ensures r == l.(requested := r.requested, current := r.current, material := r.material, approved := r.approved)
    ensures ReachesWaiting(ctx, mode, ExecuteTool, r, ledger)
  {
    r := l.(requested := g.requested, current := g.requested, material := g.requestedMaterial);
    ToolRequested(ctx, mode, g, l);
    var reply := IssuedReply(g.requested, Some(g.requestedMaterial));
    if mode == Advancing && g.requested.authorization == HumanApproval {
      Round(ctx, mode, RequestTool, l, ledger, reply, Ask(ReadDecision, r));
      Decided(ctx, mode, g, r);
      Round(ctx, mode, ReadDecision, r, ledger, IssuedReply(g.decision, None), Ask(ExecuteTool, r.(approved := Some(g.decision))));
      r := r.(approved := Some(g.decision));
    } else {
      Round(ctx, mode, RequestTool, l, ledger, reply, Ask(ExecuteTool, r));
    }
  }

  lemma ReachesHandoff(ctx: Context, mode: Mode, l: Locals, ledger: seq<Event>, b: Binding, m: Material, g: Gateway, tool: Event, final: Event)
    returns (r: Locals)
    requires ReachesWaiting(ctx, mode, ExecuteTool, l, ledger) && l.binding == b && GatewayAnswers(mode, b, m, g)
    requires EventWellFormed(tool) && EventWellFormed(final)
    requires ToolPart(l.plan, l.planEvent.id, BudgetOf(l.contextEvent.payload), m, Completed, KeyOfBinding(b), tool.payload)
    requires FinalPart(l.plan, l.planEvent.id, tool, m, KeyOfBinding(b), final.payload)
    ensures r == l.(event := final, toolEvent := tool, finalEvent := final, pending := final.payload, current := g.completed, material := m)
    ensures ReachesWaiting(ctx, mode, ReadHandoff(false), r, ledger + [tool] + [final])
  {
    var first := l.(current := g.completed, material := m, pending := tool.payload);
    ToolExecuted(ctx, mode, g, m, l, tool.payload);
    Round(ctx, mode, ExecuteTool, l, ledger, IssuedReply(g.completed, Some(m)), Ask(Append(ToolSlot), first));
    var second := first.(event := tool, toolEvent := tool, pending := final.payload);
    ToolWritten(mode, tool, final.payload, first.(event := tool));
    Writes(ctx, mode, ToolSlot, first, ledger, tool, Ask(Append(FinalSlot), second));
    r := second.(event := final, finalEvent := final);
    FinalWritten(mode, final, second.(event := final));
    Writes(ctx, mode, FinalSlot, second, ledger + [tool], final, Ask(ReadHandoff(false), r));
  }

  lemma ReachesResult(ctx: Context, mode: Mode, l: Locals, ledger: seq<Event>, p: HandoffProjection, result: Event) returns (r: Locals)
    requires ReachesWaiting(ctx, mode, ReadHandoff(false), l, ledger) && EventWellFormed(result)
    requires HandoffVerified(p, l.plan.provenance.identity, l.plan.provenance.authority)
    requires ResultPart(l.plan, l.planEvent.id, l.finalEvent, result.payload)
    requires result.payload.result.body.handoff == p.selectedReadback
    ensures r == l.(pending := result.payload, event := result)
    ensures ReachesChecking(ctx, mode, ReadBack(ResultSlot), EventReply(result), r, ledger + [result])
  {
    HandoffRead(ctx, mode, p, l, result.payload);
    Round(ctx, mode, ReadHandoff(false), l, ledger, HandoffReply(p), Ask(Append(ResultSlot), l.(pending := result.payload)));
    r := l.(pending := result.payload, event := result);
    WritesAndReads(ctx, mode, ResultSlot, l.(pending := result.payload), ledger, result);
  }

  /** What the call has read and written by the time it executes. */
  predicate Begun(l: Locals, start: Locals, b: Binding, plan: Event, seen: Event) {
    && plan.payload.PlanRecorded? && l.plan == plan.payload.plan && l.binding == b && l.planEvent == plan && l.contextEvent == seen
    && l.proposed == start.proposed && l.replay == start.replay && l.recovery == start.recovery
  }

  lemma WritesBeforeRequest(
      ctx: Context, mode: Mode, start: Locals, base: seq<Event>, b: Binding, plan: Event, seen: Event)
    returns (l: Locals)
    requires ReachesWaiting(ctx, mode, CreateCandidate, start, base) && CandidateWellFormed(start.candidate)
    requires EventWellFormed(plan) && EventWellFormed(seen)
    requires plan.payload.PlanRecorded? && BoundOk(start.proposed, b, plan.payload.plan)
    requires ContextPart(plan.payload.plan, plan.id, seen.payload)
    requires mode == Resuming ==> Advance(BudgetOf(start.recovery.payload), PlanRevisions) == Some(plan.payload.plan.budget)
    ensures Begun(l, start, b, plan, seen) && l.candidate == start.candidate
    ensures ReachesWaiting(ctx, mode, RequestTool, l, base + [plan] + [seen])
  {
    l := ReachesPlan(ctx, mode, start, base, b, plan.payload.plan);
    l := ReachesRequest(ctx, mode, l, base, plan, seen);
  }

  lemma WritesAfterExecution(
      ctx: Context, mode: Mode, l: Locals, ledger: seq<Event>, b: Binding, m: Material, g: Gateway, p: HandoffProjection,
      tool: Event, final: Event, result: Event)
    returns (r: Locals)
    requires ReachesWaiting(ctx, mode, ExecuteTool, l, ledger) && l.binding == b && GatewayAnswers(mode, b, m, g)
    requires EventWellFormed(tool) && EventWellFormed(final) && EventWellFormed(result)
    requires ToolPart(l.plan, l.planEvent.id, BudgetOf(l.contextEvent.payload), m, Completed, KeyOfBinding(b), tool.payload)
    requires FinalPart(l.plan, l.planEvent.id, tool, m, KeyOfBinding(b), final.payload)
    requires ResultPart(l.plan, l.planEvent.id, final, result.payload) && result.payload.result.body.handoff == p.selectedReadback
    requires HandoffVerified(p, l.plan.provenance.identity, l.plan.provenance.authority)
    ensures r == l.(toolEvent := tool, finalEvent := final, event := result, pending := r.pending, current := r.current, material := m)
    ensures ReachesChecking(ctx, mode, ReadBack(ResultSlot), EventReply(result), r, ledger + [tool] + [final] + [result])
  {
    r := ReachesHandoff(ctx, mode, l, ledger, b, m, g, tool, final);
    r := ReachesResult(ctx, mode, r, ledger + [tool] + [final], p, result);
  }

  /** The call holds the segment, with its binding and material, and what it read before. */
  predicate Holds(l: Locals, start: Locals, events: seq<Event>, b: Binding, m: Material) {
    && Completion.SegmentEvents(l) == events && l.binding == b && l.material == m
    && l.proposed == start.proposed && l.replay == start.replay && l.recovery == start.recovery
  }

  lemma WritesSegment(
      ctx: Context, mode: Mode, start: Locals, base: seq<Event>, events: seq<Event>, b: Binding, m: Material, g: Gateway, p: HandoffProjection)
    returns (l: Locals)
    requires ReachesWaiting(ctx, mode, CreateCandidate, start, base) && Cooperates(ctx, mode, start, events, b, m, g, p)
    ensures Holds(l, start, events, b, m) && |events| == 5
    ensures ReachesChecking(ctx, mode, ReadBack(ResultSlot), EventReply(events[4]), l, base + events)
  {
    BindingIsReadable(start.proposed, b, events[0].payload.plan);
    var half := WritesBeforeRequest(ctx, mode, start, base, b, events[0], events[1]);
    half := ReachesExecution(ctx, mode, half, base + [events[0]] + [events[1]], g);
    l := WritesAfterExecution(ctx, mode, half, base + [events[0]] + [events[1]], b, m, g, p, events[2], events[3], events[4]);
    OneByOne(base, events);
    AllHeld(half, l, start, events, b, m);
  }

  lemma AllHeld(half: Locals, l: Locals, start: Locals, events: seq<Event>, b: Binding, m: Material)
    requires |events| == 5 && Begun(half, start, b, events[0], events[1])
    requires l == half.(toolEvent := events[2], finalEvent := events[3], event := events[4], pending := l.pending,
                        current := l.current, material := m)
    ensures Holds(l, start, events, b, m)
  {
  }

  lemma OneByOne(base: seq<Event>, events: seq<Event>)
    requires |events| == 5
    ensures base + [events[0]] + [events[1]] + [events[2]] + [events[3]] + [events[4]] == base + events
  {
  }

  // ---------- The end of the call ----------

  /** Some run arrives where the call is about to return the result it wrote, with these locals and this stream. */
  ghost predicate Completes(ctx: Context, mode: Mode, l: Locals, ledger: seq<Event>) {
    exists ws: seq<World>, ss: seq<StepLabel> ::
      && Run(ctx, ws, ss) && ss != []
      && Completion.Completing(ws[|ss| - 1], ss[|ss| - 1]) && About(ws[|ss| - 1], mode, l, ledger)
  }

  predicate About(w: World, mode: Mode, l: Locals, ledger: seq<Event>) {
    w.loop.call.Active? && w.loop.call.mode == mode && w.loop.call.locals == l && w.ledger == ledger
  }

  lemma Concludes(ctx: Context, mode: Mode, l: Locals, ledger: seq<Event>)
    requires ReachesChecking(ctx, mode, ReadBack(ResultSlot), EventReply(l.event), l, ledger) && EventWellFormed(l.event)
    ensures Completes(ctx, mode, l, ledger)
  {
    var ws: seq<World>, ss: seq<StepLabel> :| Run(ctx, ws, ss) && Checking(ws[|ss|], mode, ReadBack(ResultSlot), EventReply(l.event), l, ledger);
    var next := Bounded(ws[|ss|].issued);
    var step := Reverified(Some(next));
    Extend(ctx, ws, ss, step);
    var more, steps := ws + [Apply(ctx, ws[|ss|], step)], ss + [step];
    assert more[|steps| - 1] == ws[|ss|] && steps[|steps| - 1] == step;
    assert Completion.Completing(more[|steps| - 1], steps[|steps| - 1]) && About(more[|steps| - 1], mode, l, ledger);
  }

  // ---------- Advancing ----------

  lemma AdvanceBegins(ctx: Context, c: Candidate)
    requires AdvanceAdmissible(ctx, c)
    ensures ReachesWaiting(ctx, Advancing, ReadReplay, StartLocals(c, c.plan), [])
  {
    var first := Start(0, []);
    assert Run(ctx, [first], []);
    Extend(ctx, [first], [], BeginAdvance(c));
    var ws, ss := [first] + [Apply(ctx, first, BeginAdvance(c))], [] + [BeginAdvance(c)];
    assert Waiting(ws[|ss|], Advancing, ReadReplay, StartLocals(c, c.plan), []);
  }

  lemma EmptyReplay(ctx: Context, l: Locals)
    requires l.replay == []
    ensures After(ctx, Advancing, ReadReplay, ReplayReply(ctx.identity, []), l) == Ask(CreateCandidate, l)
  {
  }

  /**
   Every five events that the payload builders make for an admissible candidate,
   a binding, a gateway's material and a verified handoff, whatever identifiers
   the store gives them, are the segment of some completed advance, and nothing
   else is in the stream.
   */
  lemma EverySegmentIsWrittenBySomeAdvance(
      ctx: Context, c: Candidate, events: seq<Event>, b: Binding, m: Material, g: Gateway, p: HandoffProjection)
    requires AdvanceAdmissible(ctx, c) && Cooperates(ctx, Advancing, StartLocals(c, c.plan), events, b, m, g, p)
    ensures exists l :: Completes(ctx, Advancing, l, events) && Holds(l, StartLocals(c, c.plan), events, b, m)
  {
    var start := StartLocals(c, c.plan);
    AdvanceBegins(ctx, c);
    EmptyReplay(ctx, start);
    Round(ctx, Advancing, ReadReplay, start, [], ReplayReply(ctx.identity, []), Ask(CreateCandidate, start));
    var l := WritesSegment(ctx, Advancing, start, [], events, b, m, g, p);
    assert [] + events == events;
    Concludes(ctx, Advancing, l, events);
  }

  // ---------- Resuming ----------

  predicate SixRecorded(base: seq<Event>) {
    && |base| == 6 && base[0].payload.PlanRecorded?
    && base[4].payload.LoopSuspended? && base[4].payload.suspension.locator.Some?
  }

  lemma SuspendedIsSix(ctx: Context, proposed: Plan, base: seq<Event>)
    requires ReplayResumable(ctx, proposed, base)
    ensures SixRecorded(base)
  {
  }

  function ResumeLocals(plan: Plan): Locals {
    StartLocals(Initial(plan, Null, Null, None), plan)
  }

  ghost predicate ReachesReclaim(ctx: Context, l: Locals, ledger: seq<Event>) {
    exists ws: seq<World>, ss: seq<StepLabel> :: Run(ctx, ws, ss) && Reclaiming(ws[|ss|], l, ledger)
  }

  predicate Reclaiming(w: World, l: Locals, ledger: seq<Event>) {
    w.loop == Loop(None, Active(Resuming, AtReclaim, l)) && w.ledger == ledger
  }

  lemma ResumeRecovers(ctx: Context, i: ResumeInput, base: seq<Event>)
    requires ResumeAdmissible(ctx, i)
    ensures ReachesReclaim(ctx, ResumeLocals(i.plan), base)
  {
    var first := Start(0, base);
    var second := Apply(ctx, first, BeginResume(i));
    var third := Apply(ctx, second, RecoverSettled(true));
    assert Run(ctx, [first], []);
    Extend(ctx, [first], [], BeginResume(i));
    Extend(ctx, [first] + [second], [] + [BeginResume(i)], RecoverSettled(true));
    var ws, ss := [first] + [second] + [third], [] + [BeginResume(i)] + [RecoverSettled(true)];
    assert Reclaiming(ws[|ss|], ResumeLocals(i.plan), base);
  }

  lemma ResumeBegins(ctx: Context, l: Locals, base: seq<Event>)
    requires ReachesReclaim(ctx, l, base)
    ensures ReachesWaiting(ctx, Resuming, ReadReplay, l, base)
  {
    var ws: seq<World>, ss: seq<StepLabel> :| Run(ctx, ws, ss) && Reclaiming(ws[|ss|], l, base);
    var next := Bounded(ws[|ss|].issued);
    var step := ReclaimSettled(Some(next));
    Extend(ctx, ws, ss, step);
    assert Waiting((ws + [Apply(ctx, ws[|ss|], step)])[|ss| + 1], Resuming, ReadReplay, l, base);
  }

  lemma SuspendedReplayRead(ctx: Context, base: seq<Event>, l: Locals)
    requires ReplayAdmissible(ctx, ctx.identity, base) && ReplayResumable(ctx, l.proposed, base)
    ensures After(ctx, Resuming, ReadReplay, ReplayReply(ctx.identity, base), l) == Ask(Reread(AfterSuspension), l.(replay := base))
  {
  }

  predicate RecoveryPart(prior: Plan, planEventId: string, result: Event, p: Payload) {
    && PlanReadable(prior)
    && Advance(BudgetOf(result.payload), ObservationRecords) == Some(BudgetOf(p))
    && p == ObservationRecorded(RecoveryObservation(prior, planEventId, result.id, BudgetOf(p)))
  }

  lemma RecoveryAppended(prior: Plan, planEventId: string, result: Event, p: Payload, l: Locals)
    requires RecoveryPart(prior, planEventId, result, p)
    ensures AppendRecovery(prior, planEventId, result, l) == Ask(Append(RecoverySlot), l.(pending := p))
  {
  }

  lemma SuspensionReread(ctx: Context, claimed: Issued, m: Material, l: Locals)
    requires SixRecorded(l.replay) && claimed.stage == Claimed && MaterialValid(m, claimed, l.replay[4].payload.suspension.locator.value)
    ensures After(ctx, Resuming, Reread(AfterSuspension), IssuedReply(claimed, Some(m)), l) ==
            AppendRecovery(l.replay[0].payload.plan, l.replay[0].id, l.replay[5], l)
  {
  }

  lemma RecoveryWritten(e: Event, l: Locals)
    requires l.replay != []
    ensures AfterSlot(Resuming, RecoverySlot, e, l) ==
            Ask(CreateCandidate, l.(recovery := e, candidate := Replan(l.replay[0], l.replay + [e], e, l.proposed)))
  {
  }

  /** The recovery observation is written from the suspended segment and the claimed record behind it. */
  lemma WritesRecovery(ctx: Context, start: Locals, base: seq<Event>, claimed: Issued, m: Material, recovery: Event) returns (l: Locals)
    requires ReachesWaiting(ctx, Resuming, Reread(AfterSuspension), start, base) && start.replay == base && SixRecorded(base)
    requires claimed.stage == Claimed && MaterialValid(m, claimed, base[4].payload.suspension.locator.value)
    requires EventWellFormed(recovery) && RecoveryPart(base[0].payload.plan, base[0].id, base[5], recovery.payload)
    ensures l == start.(pending := recovery.payload, event := recovery, recovery := recovery,
                        candidate := Replan(base[0], base + [recovery], recovery, start.proposed))
    ensures ReachesWaiting(ctx, Resuming, CreateCandidate, l, base + [recovery])
  {
    var second := start.(pending := recovery.payload);
    SuspensionReread(ctx, claimed, m, start);
    RecoveryAppended(base[0].payload.plan, base[0].id, base[5], recovery.payload, start);
    Round(ctx, Resuming, Reread(AfterSuspension), start, base, IssuedReply(claimed, Some(m)), Ask(Append(RecoverySlot), second));
    l := second.(event := recovery, recovery := recovery, candidate := Replan(base[0], base + [recovery], recovery, start.proposed));
    RecoveryWritten(recovery, second.(event := recovery));
    Writes(ctx, Resuming, RecoverySlot, second, base, recovery, Ask(CreateCandidate, l));
  }

  /** The locals of a resume that has read a suspended segment and written its recovery observation. */
  function RecoveredLocals(base: seq<Event>, recovery: Event, plan: Plan): Locals
    requires base != []
  {
    ResumeLocals(plan).(replay := base, pending := recovery.payload, event := recovery, recovery := recovery,
                        candidate := Replan(base[0], base + [recovery], recovery, plan))
  }

  lemma ResumeReachesCandidate(ctx: Context, i: ResumeInput, base: seq<Event>, claimed: Issued, claimedMaterial: Material, recovery: Event)
    requires ResumeAdmissible(ctx, i)
    requires ReplayAdmissible(ctx, ctx.identity, base) && ReplayResumable(ctx, i.plan, base) && SixRecorded(base)
    requires claimed.stage == Claimed && MaterialValid(claimedMaterial, claimed, base[4].payload.suspension.locator.value)
    requires EventWellFormed(recovery) && RecoveryPart(base[0].payload.plan, base[0].id, base[5], recovery.payload)
    ensures ReachesWaiting(ctx, Resuming, CreateCandidate, RecoveredLocals(base, recovery, i.plan), base + [recovery])
  {
    var start := ResumeLocals(i.plan);
    ResumeRecovers(ctx, i, base);
    ResumeBegins(ctx, start, base);
    SuspendedReplayRead(ctx, base, start);
    Round(ctx, Resuming, ReadReplay, start, base, ReplayReply(ctx.identity, base), Ask(Reread(AfterSuspension), start.(replay := base)));
    var l := WritesRecovery(ctx, start.(replay := base), base, claimed, claimedMaterial, recovery);
  }

  /**
   Every five events that the builders make for a replan which continues a
   suspended segment, after any recovery observation built from it, are the
   segment of some completed resume, behind the six events and the recovery.
   */
  lemma EverySegmentIsWrittenBySomeResume(
      ctx: Context, i: ResumeInput, base: seq<Event>, claimed: Issued, claimedMaterial: Material, recovery: Event,
      events: seq<Event>, b: Binding, m: Material, g: Gateway, p: HandoffProjection)
    requires ResumeAdmissible(ctx, i)
    requires ReplayAdmissible(ctx, ctx.identity, base) && ReplayResumable(ctx, i.plan, base)
    requires claimed.stage == Claimed && MaterialValid(claimedMaterial, claimed, base[4].payload.suspension.locator.value)
    requires EventWellFormed(recovery) && RecoveryPart(base[0].payload.plan, base[0].id, base[5], recovery.payload)
    requires Cooperates(ctx, Resuming, RecoveredLocals(base, recovery, i.plan), events, b, m, g, p)
    ensures exists l :: Completes(ctx, Resuming, l, base + [recovery] + events) && Holds(l, RecoveredLocals(base, recovery, i.plan), events, b, m)
  {
    SuspendedIsSix(ctx, i.plan, base);
    var start := RecoveredLocals(base, recovery, i.plan);
    ResumeReachesCandidate(ctx, i, base, claimed, claimedMaterial, recovery);
    var l := WritesSegment(ctx, Resuming, start, base + [recovery], events, b, m, g, p);
    Concludes(ctx, Resuming, l, base + [recovery] + events);
  }
}
