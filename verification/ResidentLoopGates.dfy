/**
 What a call has checked, answer by answer: when a begun call asks its first
 port, and when an answer lets it go on, in terms of the records themselves.
 */
module ResidentLoopGates {
  import opened CanonicalJson
  import opened ResidentBudget
  import opened ResidentRecords
  import opened ResidentReplay
  import opened ResidentLoop
  import opened ResidentRecordFields

  // ---------- Texts ----------

  predicate LetterDigitOrMark(c: char) {
    'a' <= c <= 'z' || 'A' <= c <= 'Z' || '0' <= c <= '9' || c == '_' || c == '-'
  }

  /** A prefix and then at least one letter, digit, underscore or hyphen, and nothing else. */
  predicate PrefixedId(prefix: string, s: string) {
    prefix <= s && |s| > |prefix| && forall c | c in s[|prefix|..] :: LetterDigitOrMark(c)
  }

  /** The name of the algorithm and sixty-four lower-case hexadecimal digits. */
  predicate HashText(h: string) {
    && "sha256:" <= h && |h| == 7 + 64
    && forall k | 7 <= k < |h| :: '0' <= h[k] <= '9' || 'a' <= h[k] <= 'f'
  }

  predicate NamesRun(i: Identity) {
    |i.residentAgentId| > 0 && |i.workspaceId| > 0 && |i.taskId| > 0 && |i.attemptId| > 0 && |i.runId| > 0
  }

  lemma TextsExactly(s: string)
    ensures IsPlanId(s) <==> PrefixedId("plan_", s)
    ensures IsEventId(s) <==> PrefixedId("evt_", s)
    ensures IsHash(s) <==> HashText(s)
  {
    PrefixedExactly("plan_", s);
    PrefixedExactly("evt_", s);
    if |s| == 71 {
      forall k | 7 <= k < |s| ensures s[7..][k - 7] == s[k] && s[k] in s[7..] { assert s[7..][k - 7] in s[7..]; }
      if HashText(s) {
        forall c | c in s[7..] ensures '0' <= c <= '9' || 'a' <= c <= 'f' {
          var k :| 0 <= k < |s[7..]| && s[7..][k] == c;
          assert s[k + 7] == c;
        }
      }
    }
  }

  lemma PrefixedExactly(prefix: string, s: string)
    ensures PrefixedId(prefix, s) <==>
            |s| > |prefix| && s[..|prefix|] == prefix && forall i | |prefix| <= i < |s| :: IsIdChar(s[i])
  {
    if |s| > |prefix| {
      var n := |prefix|;
      forall i | n <= i < |s| ensures s[n..][i - n] == s[i] && s[i] in s[n..] { assert s[n..][i - n] in s[n..]; }
      if forall i | n <= i < |s| :: IsIdChar(s[i]) {
        forall c | c in s[n..] ensures LetterDigitOrMark(c) {
          var k :| 0 <= k < |s[n..]| && s[n..][k] == c;
          assert s[k + n] == c;
        }
      }
    }
  }

  // ---------- Budgets ----------

  /** The hard maxima, and a record that keeps to them: what is consumed includes the last action, and what remains is the rest. */
  predicate WithinMaxima(b: Budget) {
    && (forall f: Field :: f in b.ceilings && f in b.consumed && f in b.remaining && f in b.action)
    && b.ceilings[PlanRevisions] == 3 && b.ceilings[ObservationRecords] == 16 && b.ceilings[ToolSteps] == 12
    && b.ceilings[ProviderInvocations] == 3 && b.ceilings[ProviderRequestBytes] == 1_048_576
    && b.ceilings[ProviderResponseBytes] == 1_048_576 && b.ceilings[ContextBytes] == 1_048_576
    && b.ceilings[DerivativeArtifactBytes] == 16_777_216 && b.ceilings[ActiveExecutionMs] == 900_000
    && b.ceilings[ApprovalSuspensionMs] == 86_400_000
    && forall f: Field :: 0 <= b.action[f] <= b.consumed[f] && b.consumed[f] + b.remaining[f] == b.ceilings[f] && b.remaining[f] >= 0
  }

  lemma ValidIsWithinMaxima(b: Budget)
    ensures Valid(b) <==> WithinMaxima(b)
  {
    if Valid(b) {
      forall f: Field ensures 0 <= b.action[f] <= b.consumed[f] && b.consumed[f] + b.remaining[f] == b.ceilings[f] && b.remaining[f] >= 0 {
        assert FieldValid(b, f);
      }
      assert FieldValid(b, PlanRevisions) && FieldValid(b, ObservationRecords) && FieldValid(b, ToolSteps);
      assert FieldValid(b, ProviderInvocations) && FieldValid(b, ProviderRequestBytes) && FieldValid(b, ProviderResponseBytes);
      assert FieldValid(b, ContextBytes) && FieldValid(b, DerivativeArtifactBytes);
      assert FieldValid(b, ActiveExecutionMs) && FieldValid(b, ApprovalSuspensionMs);
    }
    if WithinMaxima(b) {
      forall f: Field ensures FieldValid(b, f) { MaximumOf(b, f); }
    }
  }

  lemma MaximumOf(b: Budget, f: Field)
    requires WithinMaxima(b)
    ensures b.ceilings[f] == HardMaximum(f)
  {
    match f
    case PlanRevisions =>
    case ObservationRecords =>
    case ToolSteps =>
    case ProviderInvocations =>
    case ProviderRequestBytes =>
    case ProviderResponseBytes =>
    case ContextBytes =>
    case DerivativeArtifactBytes =>
    case ActiveExecutionMs =>
    case ApprovalSuspensionMs =>
  }

  // ---------- Beginning a call ----------

  /** A candidate this loop may advance: an initial one, for the loop's own run and provider posture. */
  predicate OwnCandidate(ctx: Context, c: Candidate) {
    && c.Initial? && PrefixedId("plan_", c.plan.planId) && WithinMaxima(c.plan.budget)
    && c.plan.provenance.identity == ctx.identity && NamesRun(ctx.identity) && c.posture == ctx.posture
  }

  predicate OwnSuspension(ctx: Context, i: ResumeInput) {
    && i.taskId == ctx.identity.taskId && i.attemptId == ctx.identity.attemptId && i.runId == ctx.identity.runId
    && i.checkpointKey == "resident-suspension-" + i.taskId
  }

  lemma RunStep(ctx: Context, ws: seq<World>, ss: seq<StepLabel>, k: nat)
    requires Run(ctx, ws, ss) && k < |ss|
    ensures Enabled(ctx, ws[k], ss[k]) && ws[k + 1] == Apply(ctx, ws[k], ss[k])
  {
  }

  lemma AdmissibleExactly(ctx: Context, c: Candidate, i: ResumeInput)
    ensures AdvanceAdmissible(ctx, c) <==> OwnCandidate(ctx, c)
    ensures ResumeAdmissible(ctx, i) <==> OwnSuspension(ctx, i)
  {
    TextsExactly(c.plan.planId);
    ValidIsWithinMaxima(c.plan.budget);
  }

  /**
   In every run: a call on a busy loop changes nothing. On an idle one an advance
   asks for the replay exactly if the loop holds a token and the candidate is its
   own; a resume gives the token up and has its suspension recovered exactly if
   the suspension is its own. Otherwise the call fails at once, token and stream
   as they were.
   */
  lemma CallsBeginExactly(ctx: Context, ws: seq<World>, ss: seq<StepLabel>, n: nat)
    requires Run(ctx, ws, ss) && n < |ss| && (ss[n].BeginAdvance? || ss[n].BeginResume?)
    ensures ws[n + 1].ledger == ws[n].ledger && ws[n + 1].attempts == ws[n].attempts && ws[n + 1].issued == ws[n].issued
    ensures ws[n].loop.call.Active? ==> ws[n + 1] == ws[n]
    ensures ws[n].loop.call.Idle? && ss[n].BeginAdvance? ==>
              if ws[n].loop.token.Some? && OwnCandidate(ctx, ss[n].candidate)
              then ws[n + 1].log == ws[n].log + [Called(ReadReplay)] && ws[n + 1].loop.token == ws[n].loop.token
              else ws[n + 1].log == ws[n].log + [Ended(FailedCall)] && ws[n + 1].loop == ws[n].loop
    ensures ws[n].loop.call.Idle? && ss[n].BeginResume? ==>
              if OwnSuspension(ctx, ss[n].input)
              then ws[n + 1].log == ws[n].log + [ResumeBegun] && ws[n + 1].loop.token == None
              else ws[n + 1].log == ws[n].log + [Ended(FailedCall)] && ws[n + 1].loop == ws[n].loop
  {
    RunStep(ctx, ws, ss, n);
    BeginsExactly(ctx, ws[n], ss[n]);
  }

  lemma BeginsExactly(ctx: Context, w: World, s: StepLabel)
    requires s.BeginAdvance? || s.BeginResume?
    ensures var t := Apply(ctx, w, s);
            && t.ledger == w.ledger && t.attempts == w.attempts && t.issued == w.issued
            && (w.loop.call.Active? ==> t == w)
            && (w.loop.call.Idle? && s.BeginAdvance? ==>
                  if w.loop.token.Some? && OwnCandidate(ctx, s.candidate)
                  then t.log == w.log + [Called(ReadReplay)] && t.loop.token == w.loop.token
                  else t.log == w.log + [Ended(FailedCall)] && t.loop == w.loop)
            && (w.loop.call.Idle? && s.BeginResume? ==>
                  if OwnSuspension(ctx, s.input)
                  then t.log == w.log + [ResumeBegun] && t.loop.token == None
                  else t.log == w.log + [Ended(FailedCall)] && t.loop == w.loop)
  {
    assert w.log + [] == w.log;
    match s
    case BeginAdvance(c) => AdmissibleExactly(ctx, c, ResumeInput("", "", "", "", c.plan));
    case BeginResume(i) => AdmissibleExactly(ctx, Initial(i.plan, Null, Null, None), i);
  }

  // ---------- Records that come back ----------

  /** The record has a well-formed identifier and a place in its stream. */
  predicate Recorded(e: Event) {
    PrefixedId("evt_", e.id) && e.sequence > 0
  }

  lemma RecordedExactly(e: Event)
    ensures EventWellFormed(e) <==> Recorded(e)
  {
    TextsExactly(e.id);
  }

  /** A unit of the field is left to spend. */
  predicate Room(b: Budget, field: Field) {
    WithinMaxima(b) && b.remaining[field] > 0
  }

  lemma RoomExactly(b: Budget, field: Field)
    ensures Advance(b, field).Some? <==> Room(b, field)
  {
    ValidIsWithinMaxima(b);
    AdvanceSucceedsIff(b, field);
  }

  /** The texts that the payload builders take from a plan are all there. */
  predicate NamesPlan(p: Plan) {
    && NamesRun(p.provenance.identity) && |p.provenance.runMode| > 0 && |p.provenance.correlationId| > 0 && |p.planId| > 0
    && forall k | 0 <= k < |p.provenance.contextPackRefs| :: |p.provenance.contextPackRefs[k].contentHash| > 0
  }

  lemma NamesPlanExactly(p: Plan)
    ensures PlanReadable(p) <==> NamesPlan(p)
  {
    if NamesPlan(p) {
      forall ref | ref in p.provenance.contextPackRefs ensures |ref.contentHash| > 0 {
        var k :| 0 <= k < |p.provenance.contextPackRefs| && p.provenance.contextPackRefs[k] == ref;
      }
    }
    if PlanReadable(p) {
      forall k | 0 <= k < |p.provenance.contextPackRefs| ensures |p.provenance.contextPackRefs[k].contentHash| > 0 {
        assert p.provenance.contextPackRefs[k] in p.provenance.contextPackRefs;
      }
    }
  }

  // ---------- Bindings ----------

  /** The one binding is for the one step of the plan, and adds a request identifier and a capability hash. */
  predicate BindsTheStep(bs: seq<Binding>, p: Plan) {
    && |bs| == 1 && |p.steps| == 1
    && var b, step := bs[0], p.steps[0];
    && b.identity == p.provenance.identity && NamesRun(b.identity)
    && b.planId == p.planId && |b.planId| > 0 && b.planRevision == p.planRevision
    && b.ordinal == step.ordinal && b.ordinal > 0
    && b.toolId == step.toolId && |b.toolId| > 0 && b.toolVersion == step.toolVersion && |b.toolVersion| > 0
    && |b.toolRequestId| > 0 && HashText(b.executionCapabilityHash)
  }

  lemma BindsExactly(b: Binding, p: Plan)
    ensures BindingMatches(b, p) <==> BindsTheStep([b], p)
  {
    TextsExactly(b.executionCapabilityHash);
  }

  // ---------- Gateway records ----------

  predicate ApprovalNamed(i: Issued) {
    i.decisionEventId.Some? && i.approvedBy.Some? && i.approvedPreviewHash.Some?
  }

  predicate NoApprovalNamed(i: Issued) {
    i.decisionEventId == None && i.approvedBy == None && i.approvedPreviewHash == None
  }

  /** Which optional fields a record carries: an approval once a human has approved, a claim from there on, a category with it, results at the end. */
  predicate CarriesWhatItsStageDoes(i: Issued) {
    && (if i.stage == HumanApproved || ((i.stage == Claimed || i.stage == Completed) && i.authorization == HumanApproval)
        then ApprovalNamed(i) else NoApprovalNamed(i))
    && (i.executionClaimEventId.Some? <==> i.stage == Claimed || i.stage == Completed)
    && (i.category.Some? <==> i.stage == Claimed)
    && (i.outcomeReceiptEventId.Some? <==> i.stage == Completed)
    && (i.resultEventId.Some? <==> i.stage == Completed)
  }

  /** The record is for this binding, and its material is well formed and of the same request. */
  predicate AgreesWith(i: Issued, m: Material, b: Binding) {
    && i.locator == b && i.executionCapabilityHash == b.executionCapabilityHash
    && CarriesWhatItsStageDoes(i)
    && m.readbacks.stage == i.stage && m.readbacks.authorization == i.authorization
    && m.readbacks.requestEventId == i.requestEventId && |i.requestEventId| > 0
    && HashText(m.allowlistEntryHash) && HashText(m.previewHash)
    && (forall k | 0 <= k < |m.inputArtifactHashes| :: HashText(m.inputArtifactHashes[k]))
    && forall k | 0 <= k < |m.resultArtifactHashes| :: HashText(m.resultArtifactHashes[k])
  }

  lemma AllHashes(hs: seq<string>)
    ensures (forall h | h in hs :: IsHash(h)) <==> forall k | 0 <= k < |hs| :: HashText(hs[k])
  {
    forall k | 0 <= k < |hs| ensures (IsHash(hs[k]) <==> HashText(hs[k])) && hs[k] in hs { TextsExactly(hs[k]); }
    if forall k | 0 <= k < |hs| :: HashText(hs[k]) {
      forall h | h in hs ensures IsHash(h) {
        var k :| 0 <= k < |hs| && hs[k] == h;
      }
    }
  }

  lemma KeysExactly(i: Issued)
    ensures ExactIssuedKeys(i) <==> CarriesWhatItsStageDoes(i)
  {
  }

  lemma AgreesExactly(i: Issued, m: Material, b: Binding)
    ensures MaterialValid(m, i, b) <==> AgreesWith(i, m, b)
  {
    TextsExactly(m.allowlistEntryHash);
    TextsExactly(m.previewHash);
    AllHashes(m.inputArtifactHashes);
    AllHashes(m.resultArtifactHashes);
    KeysExactly(i);
  }

  // ---------- The handoff ----------

  /** The projection shows the run's one handoff, recorded and read back for its task, run and authority. */
  predicate ShowsTheHandoff(p: HandoffProjection, i: Identity, authority: Value) {
    var h, r := p.selectedHandoff, p.selectedReadback;
    && p.taskCompleted && |p.diagnostics| == 0 && |p.handoffs| == 1 && p.handoffs[0] == h
    && h.handoffId == r.handoffId && h.taskId == i.taskId && h.runId == i.runId
    && r.verified && |r.diagnostics| == 0 && r.taskId == i.taskId && r.runId == i.runId && r.authority == authority
    && |i.taskId| > 0 && |i.runId| > 0 && |r.handoffId| > 0
    && |r.recordedEventId| > 0 && |r.terminalRunEventId| > 0 && |r.taskStatusEventId| > 0 && HashText(r.manifestHash)
  }

  lemma ShowsExactly(p: HandoffProjection, i: Identity, authority: Value)
    ensures HandoffVerified(p, i, authority) <==> ShowsTheHandoff(p, i, authority)
  {
    TextsExactly(p.selectedReadback.manifestHash);
    assert p.handoffs == [p.selectedHandoff] <==> |p.handoffs| == 1 && p.handoffs[0] == p.selectedHandoff;
  }

  // ---------- The tool step ----------

  /** A tool step can be written from this material: its cause is named for its stage, and there is room for it. */
  predicate ToolStepDue(l: Locals, m: Material) {
    && Room(BudgetOf(l.contextEvent.payload), ToolSteps)
    && StepNamed(m, StepKey(l.binding.ordinal, l.binding.toolRequestId, l.binding.toolId, l.binding.toolVersion))
    && match m.readbacks.stage
       case Completed => m.readbacks.resultEventId.Some? && |m.readbacks.resultEventId.value| > 0
       case Requested => |m.readbacks.requestEventId| > 0
       case _ => m.readbacks.executionClaimEventId.Some? && |m.readbacks.executionClaimEventId.value| > 0
  }

  lemma ToolStepExactly(l: Locals, m: Material)
    ensures AppendToolStep(l.(material := m)).Ask? <==> ToolStepDue(l, m)
  {
    RoomExactly(BudgetOf(l.contextEvent.payload), ToolSteps);
  }

  // ---------- Replays ----------

  /** The second record continues the first: its last action is what it has consumed more. */
  predicate Continues(b: Budget, c: Budget)
    requires WithinMaxima(b) && WithinMaxima(c)
  {
    forall f: Field :: c.consumed[f] == b.consumed[f] + c.action[f]
  }

  /** The validators accept the events, they are in order and apart, and their budgets continue one another. */
  predicate InChain(ctx: Context, events: seq<Event>) {
    && ctx.accepts(events)
    && (forall k | 0 <= k < |events| :: Recorded(events[k]) && WithinMaxima(BudgetOf(events[k].payload)))
    && (forall k, l | 0 <= k < l < |events| :: events[k].id != events[l].id && events[k].sequence < events[l].sequence)
    && (forall k | 0 < k < |events| :: Continues(BudgetOf(events[k - 1].payload), BudgetOf(events[k].payload)))
  }

  lemma InChainExactly(ctx: Context, events: seq<Event>)
    ensures ChainAccepted(ctx.accepts(events), events) <==> InChain(ctx, events)
  {
    forall k | 0 <= k < |events| ensures EventWellFormed(events[k]) <==> Recorded(events[k]) { RecordedExactly(events[k]); }
    forall k | 0 <= k < |events|
      ensures (Valid(Budgets(events)[k]) <==> WithinMaxima(BudgetOf(events[k].payload))) && Budgets(events)[k] == BudgetOf(events[k].payload)
    {
      ValidIsWithinMaxima(BudgetOf(events[k].payload));
    }
    if ChainAccepted(ctx.accepts(events), events) { ChainIsInChain(ctx, events); }
    if InChain(ctx, events) { InChainIsChain(ctx, events); }
  }

  lemma BudgetsWithinMaxima(events: seq<Event>, k: nat)
    requires Chain(Budgets(events)) && k < |events|
    ensures WithinMaxima(BudgetOf(events[k].payload))
  {
    assert Valid(Budgets(events)[k]);
    ValidIsWithinMaxima(BudgetOf(events[k].payload));
  }

  lemma BudgetsContinue(events: seq<Event>, k: nat)
    requires Chain(Budgets(events)) && 0 < k < |events|
    requires WithinMaxima(BudgetOf(events[k - 1].payload)) && WithinMaxima(BudgetOf(events[k].payload))
    ensures Continues(BudgetOf(events[k - 1].payload), BudgetOf(events[k].payload))
  {
    assert Progress(Budgets(events)[k - 1], Budgets(events)[k]);
  }

  lemma ChainIsInChain(ctx: Context, events: seq<Event>)
    requires ChainAccepted(ctx.accepts(events), events)
    requires forall k | 0 <= k < |events| :: EventWellFormed(events[k]) <==> Recorded(events[k])
    ensures InChain(ctx, events)
  {
    forall k | 0 <= k < |events| ensures Recorded(events[k]) && WithinMaxima(BudgetOf(events[k].payload)) {
      BudgetsWithinMaxima(events, k);
      assert EventWellFormed(events[k]);
    }
    forall k | 0 < k < |events| ensures Continues(BudgetOf(events[k - 1].payload), BudgetOf(events[k].payload)) {
      BudgetsContinue(events, k);
    }
  }

  lemma InChainIsChain(ctx: Context, events: seq<Event>)
    requires InChain(ctx, events)
    requires forall k | 0 <= k < |events| :: EventWellFormed(events[k]) <==> Recorded(events[k])
    requires forall k | 0 <= k < |events| :: Valid(Budgets(events)[k]) <==> WithinMaxima(BudgetOf(events[k].payload))
    ensures ChainAccepted(ctx.accepts(events), events)
  {
    forall k | 0 < k < |events| ensures Progress(Budgets(events)[k - 1], Budgets(events)[k]) {
      assert Continues(BudgetOf(events[k - 1].payload), BudgetOf(events[k].payload));
    }
  }

  /** The events all belong to the run of this loop. */
  predicate OfThisRun(ctx: Context, identity: Identity, events: seq<Event>) {
    identity == ctx.identity && forall k | 0 <= k < |events| :: Recorded(events[k]) && ProvenanceOf(events[k].payload).identity == ctx.identity
  }

  lemma OfThisRunExactly(ctx: Context, identity: Identity, events: seq<Event>)
    ensures ReplayAdmissible(ctx, identity, events) <==> OfThisRun(ctx, identity, events)
  {
    forall k | 0 <= k < |events| ensures (EventWellFormed(events[k]) <==> Recorded(events[k])) && events[k] in events { RecordedExactly(events[k]); }
  }

  /** Six events that end in a suspension of a known kind, with the request to reread, and the resumable result behind it. */
  predicate EndsSuspended(ctx: Context, events: seq<Event>) {
    && |events| == 6 && InChain(ctx, events)
    && events[0].payload.PlanRecorded? && events[1].payload.ObservationRecorded? && events[2].payload.ToolStepRecorded?
    && events[3].payload.ObservationRecorded? && events[4].payload.LoopSuspended? && events[5].payload.ResultRecorded?
    && var s, r := events[4].payload.suspension, events[5].payload.result.body;
    && (s.category == ApprovalRequired || s.category == EffectOutcomeUnknown) && s.locator.Some?
    && r.Resumable? && r.category == s.category && r.checkpointEventId == events[4].id
  }

  /** The proposed plan is the next revision, of this run. */
  predicate NextRevision(ctx: Context, proposed: Plan, prior: Plan) {
    proposed.provenance.identity == ctx.identity && proposed.planRevision == prior.planRevision + 1
  }

  lemma ResumableExactly(ctx: Context, proposed: Plan, events: seq<Event>)
    ensures ReplayResumable(ctx, proposed, events) <==>
            EndsSuspended(ctx, events) && NextRevision(ctx, proposed, events[0].payload.plan)
  {
    InChainExactly(ctx, events);
  }

  /** The durable plan is the proposed one, which named no request, with a request and a capability in its one step. */
  predicate PlanOfProposal(durable: Plan, proposed: Plan) {
    && |durable.steps| == 1 && |proposed.steps| == 1 && durable == proposed.(steps := durable.steps)
    && var d, p := durable.steps[0], proposed.steps[0];
    && p.toolRequestId == None && p.executionCapabilityHash == None
    && d.toolRequestId.Some? && |d.toolRequestId.value| > 0 && d.executionCapabilityHash.Some? && HashText(d.executionCapabilityHash.value)
    && d.ordinal == p.ordinal && d.toolId == p.toolId && d.toolVersion == p.toolVersion && d.details == p.details
  }

  lemma PlanOfProposalExactly(durable: Plan, proposed: Plan)
    ensures DurablePlanMatches(durable, proposed) <==> PlanOfProposal(durable, proposed)
  {
    if |durable.steps| == 1 && |proposed.steps| == 1 {
      if durable.steps[0].executionCapabilityHash.Some? { TextsExactly(durable.steps[0].executionCapabilityHash.value); }
      assert Unbind(durable).steps == [durable.steps[0].(toolRequestId := None, executionCapabilityHash := None)];
      assert proposed.steps == [proposed.steps[0]];
    }
  }

  /** Five events of a completed segment for the proposed plan, as a completed call writes them. */
  predicate CompleteSegment(ctx: Context, events: seq<Event>, proposed: Plan) {
    && |events| == 5 && InChain(ctx, events)
    && events[0].payload.PlanRecorded? && events[1].payload.ObservationRecorded? && events[2].payload.ToolStepRecorded?
    && events[3].payload.ObservationRecorded? && events[4].payload.ResultRecorded?
    && var plan, id, tool, result := events[0].payload.plan, events[0].id, events[2].payload.toolStep, events[4].payload.result;
    && PlanOfProposal(plan, proposed) && NamesPlan(plan)
    && ContextContent(events[1].payload, plan, id)
    && ToolContent(events[2].payload, plan, id, tool.material, StepOf(plan)) && tool.material.readbacks.stage == Completed
    && FinalContent(events[3].payload, plan, id, events[2].id, tool.material.resultArtifactHashes, StepOf(plan).ordinal, StepOf(plan).toolRequestId)
    && result.body.HandoffRecorded? && |result.body.handoff.manifestHash| > 0
    && ResultSays(events[4].payload, plan, id, events[3], result.body.handoff)
  }

  /** The step of a durable plan, with the request it names. */
  function StepOf(plan: Plan): StepKey
    requires |plan.steps| == 1 && plan.steps[0].toolRequestId.Some?
  {
    var s := plan.steps[0];
    StepKey(s.ordinal, s.toolRequestId.value, s.toolId, s.toolVersion)
  }

  lemma PayloadsExactly(plan: Plan, events: seq<Event>)
    requires FiveEventShape(events) && |plan.steps| == 1 && plan.steps[0].toolRequestId.Some?
    ensures ContextMatches(plan, events[0], events[1].payload.observation) <==>
            NamesPlan(plan) && ContextContent(events[1].payload, plan, events[0].id)
    ensures var tool := events[2].payload.toolStep;
            ToolStepMatches(plan, events[0], tool) <==>
            tool.material.readbacks.stage == Completed && ToolContent(events[2].payload, plan, events[0].id, tool.material, StepOf(plan))
    ensures FinalMatches(plan, events[0], events[2], events[2].payload.toolStep, events[3].payload.observation) <==>
            FinalContent(events[3].payload, plan, events[0].id, events[2].id, events[2].payload.toolStep.material.resultArtifactHashes,
                         StepOf(plan).ordinal, StepOf(plan).toolRequestId)
    ensures var result := events[4].payload.result;
            ResultMatches(plan, events[0], events[3], events[3].payload.observation, result) <==>
            && result.body.HandoffRecorded? && |result.body.handoff.manifestHash| > 0
            && ResultSays(events[4].payload, plan, events[0].id, events[3], result.body.handoff)
  {
    NamesPlanExactly(plan);
    ContextExactly(plan, events[0].id, events[1].payload.observation);
    var tool := events[2].payload.toolStep;
    ToolExactly(plan, events[0].id, tool, tool.material, StepOf(plan));
    FinalExactly(plan, events[0].id, events[2].id, tool.material.resultArtifactHashes, StepOf(plan), events[3].payload.observation);
    var result := events[4].payload.result;
    if result.body.HandoffRecorded? { ResultExactly(plan, events[0].id, events[3], result, result.body.handoff); }
  }

  lemma CompleteExactly(ctx: Context, events: seq<Event>, proposed: Plan)
    ensures ReplayReady(ctx.accepts(events), events, proposed) <==> CompleteSegment(ctx, events, proposed)
  {
    if FiveEventShape(events) {
      InChainExactly(ctx, events);
      PlanOfProposalExactly(events[0].payload.plan, proposed);
      if PlanOfProposal(events[0].payload.plan, proposed) { PayloadsExactly(events[0].payload.plan, events); }
    }
  }

  // ---------- Every answer ----------

  /** The plan is for a named run, and its steps name tools. */
  predicate StepsNamed(p: Plan) {
    && NamesRun(p.provenance.identity) && |p.planId| > 0
    && forall k | 0 <= k < |p.steps| :: p.steps[k].ordinal > 0 && |p.steps[k].toolId| > 0 && |p.steps[k].toolVersion| > 0
  }

  lemma StepsNamedExactly(p: Plan)
    ensures BindingInputReadable(p) <==> StepsNamed(p)
  {
    forall k | 0 <= k < |p.steps| ensures p.steps[k] in p.steps {}
  }

  /** A replay that the call can do with: nothing or a complete segment to advance on, a suspended one to resume. */
  predicate TakesReplay(ctx: Context, mode: Mode, reply: Reply, l: Locals) {
    && reply.ReplayReply? && OfThisRun(ctx, reply.identity, reply.events)
    && match mode
       case Advancing => reply.events == [] || CompleteSegment(ctx, reply.events, l.proposed)
       case Resuming => EndsSuspended(ctx, reply.events) && NextRevision(ctx, l.proposed, reply.events[0].payload.plan)
  }

  predicate TakesCandidate(reply: Reply, l: Locals) {
    && reply == CandidateReply(l.candidate)
    && PrefixedId("plan_", l.candidate.plan.planId) && WithinMaxima(l.candidate.plan.budget) && StepsNamed(l.proposed)
  }

  predicate TakesBindings(mode: Mode, reply: Reply, l: Locals) {
    && reply.BindingsReply? && BindsTheStep(reply.bindings, l.proposed)
    && (mode == Resuming ==> SpendsOne(BudgetOf(l.recovery.payload), PlanRevisions, l.proposed.budget))
  }

  predicate TakesAppended(reply: Reply, l: Locals) {
    reply.EventReply? && Recorded(reply.event) && reply.event.payload == l.pending
  }

  predicate TakesReadBack(mode: Mode, slot: Slot, reply: Reply, l: Locals) {
    reply == EventReply(l.event) && Recorded(l.event) && GoesOnBehind(mode, slot, l.event, l)
  }

  predicate TakesRequest(mode: Mode, reply: Reply, l: Locals) {
    && reply.IssuedReply? && reply.material.Some? && AgreesWith(reply.issued, reply.material.value, l.binding)
    && match mode
       case Advancing => reply.issued.authorization == HumanApproval || reply.issued.authorization == AutomaticPolicy
       case Resuming => reply.issued.stage == Requested
  }

  /** The record has come to this stage, agrees with the binding, and a tool step can be written from its material. */
  predicate TakesRecord(stage: Stage, reply: Reply, l: Locals) {
    && reply.IssuedReply? && reply.material.Some? && reply.issued.stage == stage
    && AgreesWith(reply.issued, reply.material.value, l.binding) && ToolStepDue(l, reply.material.value)
  }

  predicate TakesSuspension(reply: Reply, l: Locals) {
    && reply.IssuedReply? && reply.material.Some? && reply.issued.stage == Claimed
    && |l.replay| == 6 && l.replay[0].payload.PlanRecorded?
    && l.replay[4].payload.LoopSuspended? && l.replay[4].payload.suspension.locator.Some?
    && AgreesWith(reply.issued, reply.material.value, l.replay[4].payload.suspension.locator.value)
    && Room(BudgetOf(l.replay[5].payload), ObservationRecords) && NamesPlan(l.replay[0].payload.plan)
  }

  /** The handoff of a replayed segment is the recorded one. */
  predicate TakesRecordedHandoff(reply: Reply, l: Locals) {
    && reply.HandoffReply? && |l.replay| == 5
    && l.replay[0].payload.PlanRecorded? && l.replay[1].payload.ObservationRecorded? && l.replay[2].payload.ToolStepRecorded?
    && l.replay[3].payload.ObservationRecorded? && l.replay[4].payload.ResultRecorded?
    && var from, body := l.replay[0].payload.plan.provenance, l.replay[4].payload.result.body;
    && ShowsTheHandoff(reply.projection, from.identity, from.authority)
    && body.HandoffRecorded? && body.handoff == reply.projection.selectedReadback && body.resultHash == body.handoff.manifestHash
  }

  predicate TakesNewHandoff(reply: Reply, l: Locals) {
    && reply.HandoffReply? && l.finalEvent.payload.ObservationRecorded?
    && ShowsTheHandoff(reply.projection, l.plan.provenance.identity, l.plan.provenance.authority)
    && Room(BudgetOf(l.finalEvent.payload), ActiveExecutionMs)
  }

  /** The call can go on with this answer. */
  predicate Takes(ctx: Context, mode: Mode, port: Port, reply: Reply, l: Locals) {
    match port
    case ReadReplay => TakesReplay(ctx, mode, reply, l)
    case CreateCandidate => TakesCandidate(reply, l)
    case PrepareBindings => TakesBindings(mode, reply, l)
    case Append(_) => TakesAppended(reply, l)
    case ReadBack(slot) => TakesReadBack(mode, slot, reply, l)
    case RequestTool => TakesRequest(mode, reply, l)
    case ReadDecision => (reply.Rejected? && mode == Advancing) || (reply.IssuedReply? && reply.issued.stage == HumanApproved)
    case ExecuteTool => (reply.Rejected? && mode == Advancing) || TakesRecord(Completed, reply, l)
    case Reread(AfterDecision) => TakesRecord(Requested, reply, l)
    case Reread(AfterExecution) => TakesRecord(Claimed, reply, l)
    case Reread(AfterSuspension) => TakesSuspension(reply, l)
    case ReadHandoff(replayed) => if replayed then TakesRecordedHandoff(reply, l) else TakesNewHandoff(reply, l)
  }

  lemma ReplayTaken(ctx: Context, mode: Mode, reply: Reply, l: Locals)
    ensures After(ctx, mode, ReadReplay, reply, l) != Throw <==> TakesReplay(ctx, mode, reply, l)
  {
    if reply.ReplayReply? {
      OfThisRunExactly(ctx, reply.identity, reply.events);
      CompleteExactly(ctx, reply.events, l.proposed);
      ResumableExactly(ctx, l.proposed, reply.events);
      ReplayTakenByVerdicts(ctx, mode, reply.identity, reply.events, l, ReplayReady(ctx.accepts(reply.events), reply.events, l.proposed),
                            ReplayResumable(ctx, l.proposed, reply.events));
    }
  }

  lemma ReplayTakenByVerdicts(ctx: Context, mode: Mode, identity: Identity, events: seq<Event>, l: Locals, ready: bool, resumable: bool)
    requires ready == ReplayReady(ctx.accepts(events), events, l.proposed) && resumable == ReplayResumable(ctx, l.proposed, events)
    ensures After(ctx, mode, ReadReplay, ReplayReply(identity, events), l) != Throw <==>
            ReplayAdmissible(ctx, identity, events) && (if mode == Advancing then events == [] || ready else resumable)
  {
  }

  lemma CandidateTaken(ctx: Context, mode: Mode, reply: Reply, l: Locals)
    ensures After(ctx, mode, CreateCandidate, reply, l) != Throw <==> TakesCandidate(reply, l)
  {
    TextsExactly(l.candidate.plan.planId);
    ValidIsWithinMaxima(l.candidate.plan.budget);
    StepsNamedExactly(l.proposed);
  }

  lemma BindingsTaken(ctx: Context, mode: Mode, reply: Reply, l: Locals)
    ensures After(ctx, mode, PrepareBindings, reply, l) != Throw <==> TakesBindings(mode, reply, l)
  {
    if reply.BindingsReply? && |reply.bindings| == 1 {
      assert reply.bindings == [reply.bindings[0]];
      BindsExactly(reply.bindings[0], l.proposed);
      SpendsOneExactly(BudgetOf(l.recovery.payload), PlanRevisions, l.proposed.budget);
    }
  }

  lemma AppendedTaken(ctx: Context, mode: Mode, slot: Slot, reply: Reply, l: Locals)
    ensures After(ctx, mode, Append(slot), reply, l) != Throw <==> TakesAppended(reply, l)
  {
    if reply.EventReply? { RecordedExactly(reply.event); }
  }

  /** What the call does with an event that has been read back, once it is known to be the one appended. */
  predicate GoesOnBehind(mode: Mode, slot: Slot, e: Event, l: Locals) {
    match slot
    case RecoverySlot => |l.replay| > 0
    case PlanSlot => Room(l.plan.budget, ObservationRecords) && NamesPlan(l.plan)
    case ContextSlot => true
    case ToolSlot => Room(BudgetOf(e.payload), ObservationRecords)
    case FinalSlot => l.current.stage == Completed || (mode == Advancing && l.candidate.Initial? && l.candidate.assessedAt.Some?)
    case ResultSlot => true
  }

  lemma PlanEventTaken(e: Event, l: Locals)
    ensures AfterPlanEvent(e, l) != Throw <==> Room(l.plan.budget, ObservationRecords) && NamesPlan(l.plan)
  {
    RoomExactly(l.plan.budget, ObservationRecords);
    NamesPlanExactly(l.plan);
  }

  lemma ToolEventTaken(e: Event, l: Locals)
    ensures AfterToolEvent(e, l) != Throw <==> Room(BudgetOf(e.payload), ObservationRecords)
  {
    RoomExactly(BudgetOf(e.payload), ObservationRecords);
  }

  lemma SlotTaken(mode: Mode, slot: Slot, e: Event, l: Locals)
    ensures AfterSlot(mode, slot, e, l) != Throw <==> GoesOnBehind(mode, slot, e, l)
  {
    match slot
    case PlanSlot => PlanEventTaken(e, l);
    case ToolSlot => ToolEventTaken(e, l);
    case _ =>
  }

  lemma ReadBackBySlot(ctx: Context, mode: Mode, slot: Slot, reply: Reply, l: Locals)
    ensures After(ctx, mode, ReadBack(slot), reply, l) ==
            if reply == EventReply(l.event) && EventWellFormed(l.event) then AfterSlot(mode, slot, l.event, l) else Throw
  {
  }

  lemma ReadBackTaken(ctx: Context, mode: Mode, slot: Slot, reply: Reply, l: Locals)
    ensures After(ctx, mode, ReadBack(slot), reply, l) != Throw <==> TakesReadBack(mode, slot, reply, l)
  {
    RecordedExactly(l.event);
    ReadBackBySlot(ctx, mode, slot, reply, l);
    SlotTaken(mode, slot, l.event, l);
  }

  lemma RequestTaken(ctx: Context, mode: Mode, reply: Reply, l: Locals)
    ensures After(ctx, mode, RequestTool, reply, l) != Throw <==> TakesRequest(mode, reply, l)
  {
    if reply.IssuedReply? && reply.material.Some? { AgreesExactly(reply.issued, reply.material.value, l.binding); }
  }

  lemma AdoptedExactly(stage: Stage, i: Issued, m: Material, l: Locals)
    ensures AdoptIssued(stage, i, m, l) != Throw <==> i.stage == stage && AgreesWith(i, m, l.binding) && ToolStepDue(l, m)
  {
    AgreesExactly(i, m, l.binding);
    ToolStepExactly(l.(current := i), m);
  }

  lemma RecordByPort(ctx: Context, mode: Mode, port: Port, stage: Stage, reply: Reply, l: Locals)
    requires (port == ExecuteTool && stage == Completed) || (port == Reread(AfterDecision) && stage == Requested)
             || (port == Reread(AfterExecution) && stage == Claimed)
    ensures if reply.IssuedReply? && reply.material.Some?
            then After(ctx, mode, port, reply, l) == AdoptIssued(stage, reply.issued, reply.material.value, l)
            else After(ctx, mode, port, reply, l) != Throw <==> port == ExecuteTool && reply.Rejected? && mode == Advancing
  {
  }

  lemma RecordTaken(ctx: Context, mode: Mode, port: Port, stage: Stage, reply: Reply, l: Locals)
    requires (port == ExecuteTool && stage == Completed) || (port == Reread(AfterDecision) && stage == Requested)
             || (port == Reread(AfterExecution) && stage == Claimed)
    ensures After(ctx, mode, port, reply, l) != Throw <==>
            (port == ExecuteTool && reply.Rejected? && mode == Advancing) || TakesRecord(stage, reply, l)
  {
    RecordByPort(ctx, mode, port, stage, reply, l);
    if reply.IssuedReply? && reply.material.Some? { AdoptedExactly(stage, reply.issued, reply.material.value, l); }
  }

  lemma RecoveryTaken(prior: Plan, planEventId: string, result: Event, l: Locals)
    ensures AppendRecovery(prior, planEventId, result, l) != Throw <==> Room(BudgetOf(result.payload), ObservationRecords) && NamesPlan(prior)
  {
    RoomExactly(BudgetOf(result.payload), ObservationRecords);
    NamesPlanExactly(prior);
  }

  predicate SixRead(l: Locals) {
    && |l.replay| == 6 && l.replay[0].payload.PlanRecorded?
    && l.replay[4].payload.LoopSuspended? && l.replay[4].payload.suspension.locator.Some?
  }

  lemma SuspensionByRecord(ctx: Context, mode: Mode, reply: Reply, l: Locals)
    ensures After(ctx, mode, Reread(AfterSuspension), reply, l) ==
            if reply.IssuedReply? && reply.material.Some? && SixRead(l) && reply.issued.stage == Claimed
               && MaterialValid(reply.material.value, reply.issued, l.replay[4].payload.suspension.locator.value)
            then AppendRecovery(l.replay[0].payload.plan, l.replay[0].id, l.replay[5], l) else Throw
  {
  }

  lemma SuspensionTaken(ctx: Context, mode: Mode, reply: Reply, l: Locals)
    ensures After(ctx, mode, Reread(AfterSuspension), reply, l) != Throw <==> TakesSuspension(reply, l)
  {
    SuspensionByRecord(ctx, mode, reply, l);
    if reply.IssuedReply? && reply.material.Some? && SixRead(l) {
      AgreesExactly(reply.issued, reply.material.value, l.replay[4].payload.suspension.locator.value);
      RecoveryTaken(l.replay[0].payload.plan, l.replay[0].id, l.replay[5], l);
    }
  }

  lemma HandoffTaken(ctx: Context, mode: Mode, replayed: bool, reply: Reply, l: Locals)
    ensures After(ctx, mode, ReadHandoff(replayed), reply, l) != Throw <==>
            if replayed then TakesRecordedHandoff(reply, l) else TakesNewHandoff(reply, l)
  {
    if reply.HandoffReply? {
      if replayed && FiveEventShape(l.replay) {
        ShowsExactly(reply.projection, l.replay[0].payload.plan.provenance.identity, l.replay[0].payload.plan.provenance.authority);
      }
      ShowsExactly(reply.projection, l.plan.provenance.identity, l.plan.provenance.authority);
      RoomExactly(BudgetOf(l.finalEvent.payload), ActiveExecutionMs);
    }
  }

  lemma AnswersAreTaken(ctx: Context, mode: Mode, port: Port, reply: Reply, l: Locals)
    ensures After(ctx, mode, port, reply, l) != Throw <==> Takes(ctx, mode, port, reply, l)
  {
    match port
    case ReadReplay => ReplayTaken(ctx, mode, reply, l);
    case CreateCandidate => CandidateTaken(ctx, mode, reply, l);
    case PrepareBindings => BindingsTaken(ctx, mode, reply, l);
    case Append(slot) => AppendedTaken(ctx, mode, slot, reply, l);
    case ReadBack(slot) => ReadBackTaken(ctx, mode, slot, reply, l);
    case RequestTool => RequestTaken(ctx, mode, reply, l);
    case ReadDecision => DecisionTaken(ctx, mode, reply, l);
    case ExecuteTool => RecordTaken(ctx, mode, ExecuteTool, Completed, reply, l);
    case Reread(AfterDecision) => RecordTaken(ctx, mode, Reread(AfterDecision), Requested, reply, l);
    case Reread(AfterExecution) => RecordTaken(ctx, mode, Reread(AfterExecution), Claimed, reply, l);
    case Reread(AfterSuspension) => SuspensionTaken(ctx, mode, reply, l);
    case ReadHandoff(replayed) => HandoffTaken(ctx, mode, replayed, reply, l);
  }

  lemma DecisionTaken(ctx: Context, mode: Mode, reply: Reply, l: Locals)
    ensures After(ctx, mode, ReadDecision, reply, l) != Throw <==>
            (reply.Rejected? && mode == Advancing) || (reply.IssuedReply? && reply.issued.stage == HumanApproved)
  {
  }

  /**
   In every run a reverified answer ends its call in failure exactly when the call
   cannot go on with it.
   */
  lemma CallsFailExactly(ctx: Context, ws: seq<World>, ss: seq<StepLabel>, n: nat)
    requires Run(ctx, ws, ss) && n < |ss| && ss[n].Reverified? && ss[n].next.Some?
    ensures ws[n].loop.call.Active? && ws[n].loop.call.await.AtReverify?
    ensures var call := ws[n].loop.call;
            ws[n + 1].log == ws[n].log + [Granted(ss[n].next.value)] + [Ended(FailedCall)] <==>
            !Takes(ctx, call.mode, call.await.port, call.await.reply, call.locals)
  {
    RunStep(ctx, ws, ss, n);
    var call := ws[n].loop.call;
    AnswersAreTaken(ctx, call.mode, call.await.port, call.await.reply, call.locals);
    FailsByMove(ctx, ws[n], ss[n].next.value, After(ctx, call.mode, call.await.port, call.await.reply, call.locals));
  }

  lemma FailsByMove(ctx: Context, w: World, next: Token, m: Move)
    requires w.loop.call.Active? && w.loop.call.await.AtReverify?
    requires m == After(ctx, w.loop.call.mode, w.loop.call.await.port, w.loop.call.await.reply, w.loop.call.locals)
    ensures Continue(ctx, w, next).log == w.log + [Granted(next)] + [Ended(FailedCall)] <==> m == Throw
  {
    var log := Continue(ctx, w, next).log;
    assert log[|log| - 1] == match m
                             case Ask(port, _) => Called(port)
                             case Suspend => PresentedToSuspend(next)
                             case Return(e) => Ended(CompletedWith(e))
                             case Throw => Ended(FailedCall);
    if log == w.log + [Granted(next)] + [Ended(FailedCall)] { assert log[|log| - 1] == Ended(FailedCall); }
  }
}
