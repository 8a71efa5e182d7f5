/**
 What the stable keys of the durable store mean, in terms of the records
 themselves: which two payloads hold the same key, what a stream therefore never
 holds twice, when a key is refused, and when an append goes through.
 */
module ResidentStoreKeys {
  import opened CanonicalJson
  import opened ResidentRecords
  import opened EventLedgers
  import opened Sequences
  import opened ResidentStore
  import Projection = ResidentProjection
  import Recorder = ResidentRecorder

  // ---------- What a record is about ----------

  predicate SameOutcome(a: ResultBody, b: ResultBody) {
    match (a, b)
    case (HandoffRecorded(_, _), HandoffRecorded(_, _)) => true
    case (Resumable(c, _), Resumable(d, _)) => c == d
    case (OtherResult(o, c, _), OtherResult(q, d, _)) => o == q && c == d
    case _ => false
  }

  /** Two records of one kind that are about the same thing. */
  predicate SameSubject(p: Payload, q: Payload) {
    match (p, q)
    case (PlanRecorded(a), PlanRecorded(b)) => a.planId == b.planId
    case (ObservationRecorded(a), ObservationRecorded(b)) => a.observationId == b.observationId
    case (ToolStepRecorded(a), ToolStepRecorded(b)) =>
      a.step.toolRequestId == b.step.toolRequestId && a.material.readbacks.stage == b.material.readbacks.stage && a.state == b.state
    case (LoopSuspended(a), LoopSuspended(b)) => a.checkpointEventId == b.checkpointEventId && a.category == b.category
    case (ResultRecorded(a), ResultRecorded(b)) =>
      && a.planId == b.planId && a.planRevision == b.planRevision && a.finalObservation.eventId == b.finalObservation.eventId
      && SameOutcome(a.body, b.body)
    case _ => false
  }

  predicate NoColon(s: string) { ':' !in s }

  /** A stage outside the four is called something else, without colons. */
  predicate PlainStage(s: Stage) {
    s.OtherStage? ==>
      NoColon(s.name) && s.name != "requested" && s.name != "human-approved" && s.name != "claimed" && s.name != "completed"
  }

  predicate PlainCategory(c: SuspensionCategory) {
    c.OtherCategory? ==> c.name != "approval-required" && c.name != "effect-outcome-unknown"
  }

  predicate PlainOutcome(b: ResultBody) {
    match b
    case HandoffRecorded(_, _) => true
    case Resumable(c, _) => PlainCategory(c)
    case OtherResult(outcome, c, _) => NoColon(outcome) && outcome != "completed" && outcome != "resumable" && PlainCategory(c)
  }

  /** The texts a key is joined from carry no colon; plans and observations have a single one, so they may carry anything. */
  predicate Plain(p: Payload) {
    match p
    case PlanRecorded(_) => true
    case ObservationRecorded(_) => true
    case ToolStepRecorded(t) => NoColon(t.step.toolRequestId) && PlainStage(t.material.readbacks.stage)
    case LoopSuspended(s) => NoColon(s.checkpointEventId) && PlainCategory(s.category)
    case ResultRecorded(r) => NoColon(r.planId) && NoColon(r.finalObservation.eventId) && PlainOutcome(r.body)
  }

  // ---------- Keys tell subjects apart ----------

  lemma ColonAt(a: string, b: string, k: nat)
    requires NoColon(a)
    ensures (a + ":" + b)[|a|] == ':'
    ensures k < |a| ==> (a + ":" + b)[k] != ':'
  {
    if k < |a| { assert (a + ":" + b)[k] == a[k]; }
  }

  lemma SplitAtColon(a: string, b: string, c: string, d: string)
    requires NoColon(a) && NoColon(c) && a + ":" + b == c + ":" + d
    ensures a == c && b == d
  {
    var left, right := a + ":" + b, c + ":" + d;
    ColonAt(a, b, |c|);
    ColonAt(c, d, |a|);
    assert a == left[..|a|] && c == right[..|c|];
    assert b == left[|a| + 1..] && d == right[|c| + 1..];
  }

  lemma StageTells(s: Stage, t: Stage)
    requires PlainStage(s) && PlainStage(t)
    ensures StageName(s) == StageName(t) <==> s == t
    ensures NoColon(StageName(s))
  {
  }

  lemma CategoryTells(c: SuspensionCategory, d: SuspensionCategory)
    requires PlainCategory(c) && PlainCategory(d)
    ensures CategoryName(c) == CategoryName(d) <==> c == d
  {
  }

  /** The outcome before its colon, and the category behind it. */
  function OutcomeName(b: ResultBody): (string, string) {
    match b
    case HandoffRecorded(_, _) => ("completed", "handoff-recorded")
    case Resumable(c, _) => ("resumable", CategoryName(c))
    case OtherResult(outcome, c, _) => (outcome, CategoryName(c))
  }

  lemma OutcomeJoined(b: ResultBody)
    ensures OutcomeKey(b) == OutcomeName(b).0 + ":" + OutcomeName(b).1
    ensures PlainOutcome(b) ==> NoColon(OutcomeName(b).0)
  {
    if b.HandoffRecorded? { assert "completed" + ":" + "handoff-recorded" == "completed:handoff-recorded"; }
    if b.Resumable? { assert "resumable" + ":" + CategoryName(b.category) == "resumable:" + CategoryName(b.category); }
  }

  lemma OutcomeTells(a: ResultBody, b: ResultBody)
    requires PlainOutcome(a) && PlainOutcome(b)
    ensures OutcomeKey(a) == OutcomeKey(b) <==> SameOutcome(a, b)
  {
    OutcomeJoined(a);
    OutcomeJoined(b);
    if OutcomeKey(a) == OutcomeKey(b) {
      SplitAtColon(OutcomeName(a).0, OutcomeName(a).1, OutcomeName(b).0, OutcomeName(b).1);
      if a.Resumable? && b.Resumable? { CategoryTells(a.category, b.category); }
      if a.OtherResult? && b.OtherResult? { CategoryTells(a.category, b.category); }
    }
  }

  lemma CancelPrefix(p: string, a: string, b: string)
    ensures p + a == p + b <==> a == b
  {
    assert (p + a)[|p|..] == a && (p + b)[|p|..] == b;
  }

  lemma PlanKeys(a: Plan, b: Plan)
    ensures StableKey(PlanRecorded(a)) == StableKey(PlanRecorded(b)) <==> a.planId == b.planId
  {
    CancelPrefix("plan:", a.planId, b.planId);
  }

  lemma ObservationKeys(a: Observation, b: Observation)
    ensures StableKey(ObservationRecorded(a)) == StableKey(ObservationRecorded(b)) <==> a.observationId == b.observationId
  {
    CancelPrefix("observation:", a.observationId, b.observationId);
  }

  /** Three texts joined by colons behind a prefix, regrouped to split from the left. */
  lemma JoinedByColons(prefix: string, a: string, b: string, c: string)
    ensures prefix + a + ":" + b + ":" + c == prefix + (a + ":" + (b + ":" + c))
  {
  }

  function StateName(s: StepState): string {
    if s == Executed then "executed" else "suspended"
  }

  lemma ToolKeys(a: ToolStep, b: ToolStep)
    requires Plain(ToolStepRecorded(a)) && Plain(ToolStepRecorded(b))
    ensures StableKey(ToolStepRecorded(a)) == StableKey(ToolStepRecorded(b)) <==> SameSubject(ToolStepRecorded(a), ToolStepRecorded(b))
  {
    var s, t := StageName(a.material.readbacks.stage), StageName(b.material.readbacks.stage);
    var x, y := StateName(a.state), StateName(b.state);
    StageTells(a.material.readbacks.stage, b.material.readbacks.stage);
    StageTells(b.material.readbacks.stage, a.material.readbacks.stage);
    JoinedByColons("tool:", a.step.toolRequestId, s, x);
    JoinedByColons("tool:", b.step.toolRequestId, t, y);
    CancelPrefix("tool:", a.step.toolRequestId + ":" + (s + ":" + x), b.step.toolRequestId + ":" + (t + ":" + y));
    if StableKey(ToolStepRecorded(a)) == StableKey(ToolStepRecorded(b)) {
      SplitAtColon(a.step.toolRequestId, s + ":" + x, b.step.toolRequestId, t + ":" + y);
      SplitAtColon(s, x, t, y);
    }
  }

  lemma SuspensionKeys(a: Suspension, b: Suspension)
    requires Plain(LoopSuspended(a)) && Plain(LoopSuspended(b))
    ensures StableKey(LoopSuspended(a)) == StableKey(LoopSuspended(b)) <==> SameSubject(LoopSuspended(a), LoopSuspended(b))
  {
    var c, d := CategoryName(a.category), CategoryName(b.category);
    CategoryTells(a.category, b.category);
    Assoc("suspension:", a.checkpointEventId, ":" + c);
    assert StableKey(LoopSuspended(a)) == "suspension:" + (a.checkpointEventId + ":" + c);
    assert StableKey(LoopSuspended(b)) == "suspension:" + (b.checkpointEventId + ":" + d);
    CancelPrefix("suspension:", a.checkpointEventId + ":" + c, b.checkpointEventId + ":" + d);
    if StableKey(LoopSuspended(a)) == StableKey(LoopSuspended(b)) { SplitAtColon(a.checkpointEventId, c, b.checkpointEventId, d); }
  }

  lemma FourJoined(prefix: string, a: string, b: string, c: string, d: string)
    ensures prefix + a + ":" + b + ":" + c + ":" + d == prefix + (a + ":" + (b + ":" + (c + ":" + d)))
  {
  }

  lemma IntTextHasNoColon(n: int)
    ensures NoColon(IntText(n))
  {
    Projection.DigitsAreRead(if n < 0 then -n else n);
  }

  lemma ResultKeys(a: LoopResult, b: LoopResult)
    requires Plain(ResultRecorded(a)) && Plain(ResultRecorded(b))
    ensures StableKey(ResultRecorded(a)) == StableKey(ResultRecorded(b)) <==> SameSubject(ResultRecorded(a), ResultRecorded(b))
  {
    var n, m, o, q := IntText(a.planRevision), IntText(b.planRevision), OutcomeKey(a.body), OutcomeKey(b.body);
    var x, y := a.finalObservation.eventId, b.finalObservation.eventId;
    FourJoined("result:", a.planId, n, x, o);
    FourJoined("result:", b.planId, m, y, q);
    CancelPrefix("result:", a.planId + ":" + (n + ":" + (x + ":" + o)), b.planId + ":" + (m + ":" + (y + ":" + q)));
    OutcomeTells(a.body, b.body);
    if StableKey(ResultRecorded(a)) == StableKey(ResultRecorded(b)) {
      IntTextHasNoColon(a.planRevision);
      IntTextHasNoColon(b.planRevision);
      SplitAtColon(a.planId, n + ":" + (x + ":" + o), b.planId, m + ":" + (y + ":" + q));
      SplitAtColon(n, x + ":" + o, m, y + ":" + q);
      SplitAtColon(x, o, y, q);
      Projection.IntTextTells(a.planRevision, b.planRevision);
    }
  }

  /** An event and a payload share a key exactly when they are about the same thing. */
  lemma KeysTellSubjects(e: Entry<Body>, p: Payload)
    requires e.body.Resident? && Plain(e.body.payload) && Plain(p)
    ensures Holds(e, p) <==> SameSubject(e.body.payload, p)
  {
    match (e.body.payload, p)
    case (PlanRecorded(a), PlanRecorded(b)) => PlanKeys(a, b);
    case (ObservationRecorded(a), ObservationRecorded(b)) => ObservationKeys(a, b);
    case (ToolStepRecorded(a), ToolStepRecorded(b)) => ToolKeys(a, b);
    case (LoopSuspended(a), LoopSuspended(b)) => SuspensionKeys(a, b);
    case (ResultRecorded(a), ResultRecorded(b)) => ResultKeys(a, b);
    case _ =>
  }

  lemma SameSubjectHolds(e: Entry<Body>, p: Payload)
    requires e.body.Resident? && SameSubject(e.body.payload, p)
    ensures Holds(e, p)
  {
    match (e.body.payload, p)
    case (ResultRecorded(a), ResultRecorded(b)) => OutcomeJoined(a.body); OutcomeJoined(b.body);
    case _ =>
  }

  /** With colons inside, different suspensions can share a key. */
  lemma ColonsMayMislead(s: Suspension)
    ensures var a := LoopSuspended(s.(checkpointEventId := "a:b", category := OtherCategory("c")));
            var b := LoopSuspended(s.(checkpointEventId := "a", category := OtherCategory("b:c")));
            SameKind(a, b) && StableKey(a) == StableKey(b) && !SameSubject(a, b)
  {
    assert "suspension:" + "a:b" + ":" + "c" == "suspension:" + "a" + ":" + "b:c";
  }

  /** The payload and all that its stream may hold are plain, or are of a kind that need not be. */
  predicate AllPlain(es: Ledger, p: Payload) {
    Plain(p) && forall e | e in es && e.body.Resident? && SameKind(e.body.payload, p) :: Plain(e.body.payload)
  }

  // ---------- Over every run ----------

  /**
   Whatever interleaves, a stream never holds two records about the same thing:
   no two plans with one identifier, no two observations with one identifier, and
   so on for the other kinds.
   */
  lemma NothingIsRecordedTwice(v: Validators, ws: seq<World>, ss: seq<StepLabel>, n: nat, i: nat, j: nat)
    requires Run(v, ws, ss) && n < |ws| && i < j < |ws[n].ledger|
    requires ws[n].ledger[i].streamId == ws[n].ledger[j].streamId
    requires ws[n].ledger[i].body.Resident? && ws[n].ledger[j].body.Resident?
    ensures !SameSubject(ws[n].ledger[i].body.payload, ws[n].ledger[j].body.payload)
  {
    StoreSafety(v, ws, ss, n);
    if SameSubject(ws[n].ledger[i].body.payload, ws[n].ledger[j].body.payload) {
      SameSubjectHolds(ws[n].ledger[i], ws[n].ledger[j].body.payload);
    }
  }

  lemma PriorIsSubject(stream: Ledger, p: Payload)
    requires AllPlain(stream, p)
    ensures Prior(stream, p).None? <==> forall e | e in stream && e.body.Resident? :: !SameSubject(e.body.payload, p)
    ensures Prior(stream, p).Some? ==>
              Prior(stream, p).value in stream && Prior(stream, p).value.body.Resident?
              && SameSubject(Prior(stream, p).value.body.payload, p)
  {
    forall e | e in stream && e.body.Resident? ensures Holds(e, p) <==> SameSubject(e.body.payload, p) {
      if SameKind(e.body.payload, p) { KeysTellSubjects(e, p); }
    }
    NoPriorMeansNoHolder(stream, p);
  }

  /** Some event of the stream is about the same thing as the payload, and is, or is not, the payload itself. */
  predicate SubjectIn(stream: Ledger, p: Payload, itself: bool) {
    exists e :: e in stream && e.body.Resident? && SameSubject(e.body.payload, p) && (e.body.payload == p) == itself
  }

  lemma DecisionBySubject(p: Payload, es: Ledger, stream: Ledger, all: Ledger)
    requires LedgerSafe(es) && stream <= Stream(es, Home(p)) && AllPlain(stream, p)
    ensures Decision(p, stream, all) == Failed(KeyBindsOther) <==> SubjectIn(stream, p, false)
    ensures Decision(p, stream, all).Returned? <==> SubjectIn(stream, p, true)
    ensures Decision(p, stream, all).Returned? ==>
              Decision(p, stream, all).event in stream && Decision(p, stream, all).event.body == Resident(p)
  {
    PriorIsSubject(stream, p);
    forall e | e in stream && e.body.Resident? && SameSubject(e.body.payload, p) ensures Prior(stream, p) == Some(e) {
      SameSubjectHolds(e, p);
      HolderIsFound(es, stream, p, e);
    }
  }

  /**
   In every run a call is refused for its key exactly when the stream, as the
   call read it, holds a different payload about the same thing, and is answered
   from the stream exactly when it holds the very payload. For plans and
   observations that is all; the texts of the other kinds must carry no colons.
   */
  lemma KeyIsRefusedExactly(v: Validators, ws: seq<World>, ss: seq<StepLabel>, n: nat, c: nat)
    requires Run(v, ws, ss) && n < |ss| && ss[n] == Decide(c)
    requires c in ws[n].calls && ws[n].calls[c].Reading? && ws[n].calls[c].stream.Some?
    requires AllPlain(ws[n].calls[c].stream.value, ws[n].calls[c].payload)
    ensures var read, p := ws[n].calls[c].stream.value, ws[n].calls[c].payload;
            && c in ws[n + 1].calls
            && (ws[n + 1].calls[c] == Failed(KeyBindsOther) <==> SubjectIn(read, p, false))
            && (ws[n + 1].calls[c].Returned? <==> SubjectIn(read, p, true))
            && forall e | e in read :: e in ws[n].ledger && e.streamId == Home(p)
  {
    RunStep(v, ws, ss, n);
    RunKeepsStore(v, ws, ss, n);
    var ph := ws[n].calls[c];
    assert PhaseOk(ws[n].ledger, ph);
    DecisionBySubject(ph.payload, ws[n].ledger, ph.stream.value, ph.all.value);
  }

  /** And nothing but that decision refuses a key. */
  lemma OnlyDecisionsRefuseKeys(v: Validators, ws: seq<World>, ss: seq<StepLabel>, n: nat, c: nat)
    requires Run(v, ws, ss) && n < |ss| && c in ws[n + 1].calls && ws[n + 1].calls[c] == Failed(KeyBindsOther)
    ensures ss[n] == Decide(c) || (c in ws[n].calls && ws[n].calls[c] == Failed(KeyBindsOther))
  {
    RunStep(v, ws, ss, n);
  }

  // ---------- When an append goes through ----------

  /** No step of the plan names a request that another of its steps, a recorded plan or a resident domain event names. */
  predicate RequestsAreNew(es: Ledger, plan: Plan) {
    && (forall k, l | 0 <= k < l < |plan.steps| :: plan.steps[k].toolRequestId != plan.steps[l].toolRequestId)
    && (forall e, k, l | e in es && e.body.Resident? && e.body.payload.PlanRecorded?
          && 0 <= k < |plan.steps| && 0 <= l < |e.body.payload.plan.steps| ::
          e.body.payload.plan.steps[l].toolRequestId != plan.steps[k].toolRequestId)
    && (forall e, k | e in es && e.body.Domain? && e.body.toolRequestId.Some? && 0 <= k < |plan.steps| ::
          plan.steps[k].toolRequestId != e.body.toolRequestId)
  }

  lemma UnusedIsNew(es: Ledger, plan: Plan)
    ensures Unused(StepIds(plan.steps), es) <==> RequestsAreNew(es, plan)
  {
    var ids := StepIds(plan.steps);
    if Unused(ids, es) {
      forall e, k | e in es && 0 <= k < |plan.steps| ensures plan.steps[k].toolRequestId !in BurnedBy(e) {
        assert ids[k] in ids && !Burned(es, ids[k]);
      }
      forall e, k, l | e in es && e.body.Resident? && e.body.payload.PlanRecorded?
                       && 0 <= k < |plan.steps| && 0 <= l < |e.body.payload.plan.steps|
        ensures e.body.payload.plan.steps[l].toolRequestId != plan.steps[k].toolRequestId
      {
        assert RequestIds(e)[l] in RequestIds(e);
      }
    }
    if RequestsAreNew(es, plan) {
      forall x | x in ids ensures !Burned(es, x) {
        var k :| 0 <= k < |ids| && ids[k] == x;
        if e :| e in es && x in BurnedBy(e) { NewIsNotBurned(es, plan, e, k); }
      }
    }
  }

  lemma NewIsNotBurned(es: Ledger, plan: Plan, e: Entry<Body>, k: nat)
    requires RequestsAreNew(es, plan) && e in es && k < |plan.steps|
    ensures plan.steps[k].toolRequestId !in BurnedBy(e)
  {
    if IsPlan(e) {
      assert forall l | 0 <= l < |RequestIds(e)| :: RequestIds(e)[l] == e.body.payload.plan.steps[l].toolRequestId;
    }
  }

  /** The payload is parsed and names the default agent in full, its subject is new to its stream, and a plan's requests are new. */
  predicate MayBeAppended(v: Validators, es: Ledger, p: Payload) {
    var i := ProvenanceOf(p).identity;
    && i.residentAgentId == "agent_default" && i.workspaceId != "" && i.taskId != "" && i.attemptId != "" && i.runId != ""
    && v.parses(p)
    && (forall e | e in es && e.streamId == Home(p) && e.body.Resident? :: !SameSubject(e.body.payload, p))
    && (p.PlanRecorded? ==> RequestsAreNew(es, p.plan))
  }

  lemma MayBeAppendedExactly(v: Validators, es: Ledger, p: Payload)
    requires AllPlain(Stream(es, Home(p)), p)
    ensures MayBeAppended(v, es, p) <==> Opening(v, p).Reading? && Decision(p, Stream(es, Home(p)), es).Appending?
  {
    DecisionAppendsExactly(es, p);
  }

  lemma AppendsItsEvent(v: Validators, es: Ledger, p: Payload, id: string)
    requires Opening(v, p).Reading? && Decision(p, Stream(es, Home(p)), es).Appending?
    ensures AppendAlone(v, es, p, id).0 == es + [Entry(id, Home(p), |Stream(es, Home(p))| + 1, Resident(p))]
  {
  }

  lemma AppendsNothing(v: Validators, es: Ledger, p: Payload, id: string)
    requires !(Opening(v, p).Reading? && Decision(p, Stream(es, Home(p)), es).Appending?)
    ensures AppendAlone(v, es, p, id).0 == es
  {
  }

  /** An append that nobody disturbs adds its event exactly when it may be, and otherwise leaves the ledger as it is. */
  lemma AppendsExactly(v: Validators, es: Ledger, p: Payload, id: string)
    requires LedgerSafe(es) && id !in Ids(es) && AllPlain(Stream(es, Home(p)), p)
    ensures MayBeAppended(v, es, p) ==> AppendAlone(v, es, p, id).0 == es + [Entry(id, Home(p), |Stream(es, Home(p))| + 1, Resident(p))]
    ensures !MayBeAppended(v, es, p) ==> AppendAlone(v, es, p, id).0 == es
  {
    MayBeAppendedExactly(v, es, p);
    if MayBeAppended(v, es, p) { AppendsItsEvent(v, es, p, id); } else { AppendsNothing(v, es, p, id); }
  }

  lemma DecisionAppendsExactly(es: Ledger, p: Payload)
    requires AllPlain(Stream(es, Home(p)), p)
    ensures Decision(p, Stream(es, Home(p)), es).Appending? <==>
            && (forall e | e in es && e.streamId == Home(p) && e.body.Resident? :: !SameSubject(e.body.payload, p))
            && (p.PlanRecorded? ==> RequestsAreNew(es, p.plan))
  {
    AppendsWhen(es, p);
    PriorIsSubject(Stream(es, Home(p)), p);
    NoPriorMeansNoHolder(Stream(es, Home(p)), p);
    if p.PlanRecorded? { UnusedIsNew(es, p.plan); }
    assert forall e :: e in Stream(es, Home(p)) <==> e in es && e.streamId == Home(p);
  }

  predicate StepsRepeat(plan: Plan) {
    exists k, l :: 0 <= k < l < |plan.steps| && plan.steps[k].toolRequestId == plan.steps[l].toolRequestId
  }

  lemma DistinctIds(plan: Plan)
    ensures Distinct(StepIds(plan.steps)) <==> !StepsRepeat(plan)
  {
    var ids := StepIds(plan.steps);
    if k, l :| 0 <= k < l < |ids| && ids[k] == ids[l] { assert plan.steps[k].toolRequestId == plan.steps[l].toolRequestId; }
  }

  lemma VerdictExactly(es: Ledger, plan: Plan)
    ensures UnusedVerdict(StepIds(plan.steps), es) ==
            if StepsRepeat(plan) then Some(RepeatedRequestId) else if !RequestsAreNew(es, plan) then Some(BurnedRequestId) else None
  {
    DistinctIds(plan);
    UnusedIsNew(es, plan);
    VerdictMeansUnused(StepIds(plan.steps), es);
  }

  /**
   What a call finds out with fresh reads: the key is refused before the request
   IDs are looked at, repetitions inside the plan before those with the ledger.
   */
  lemma RefusalsExactly(es: Ledger, p: Payload)
    requires LedgerSafe(es) && AllPlain(Stream(es, Home(p)), p)
    ensures var stream, d := Stream(es, Home(p)), Decision(p, Stream(es, Home(p)), es);
            if SubjectIn(stream, p, true) then d.Returned? && d.event in es && d.event.body == Resident(p)
            else if SubjectIn(stream, p, false) then d == Failed(KeyBindsOther)
            else if p.PlanRecorded? && StepsRepeat(p.plan) then d == Failed(RepeatedRequestId)
            else if p.PlanRecorded? && !RequestsAreNew(es, p.plan) then d == Failed(BurnedRequestId)
            else d == Appending(p, stream, es)
  {
    DecisionBySubject(p, es, Stream(es, Home(p)), es);
    PriorIsSubject(Stream(es, Home(p)), p);
    if p.PlanRecorded? { VerdictExactly(es, p.plan); }
  }

  // ---------- Streams ----------

  /** Runs that share two of their three identifiers share a stream only if they share the third. */
  lemma StreamsTellRuns(i: Identity, j: Identity)
    requires StreamIdOf(i) == StreamIdOf(j)
    ensures i.taskId == j.taskId && i.attemptId == j.attemptId ==> i.runId == j.runId
    ensures i.taskId == j.taskId && i.runId == j.runId ==> i.attemptId == j.attemptId
    ensures i.attemptId == j.attemptId && i.runId == j.runId ==> i.taskId == j.taskId
  {
    var t, u := "agent_resident_loop_", "_";
    UnderscoreJoined(t, i.taskId, i.attemptId, i.runId);
    UnderscoreJoined(t, j.taskId, j.attemptId, j.runId);
    CancelPrefix(t, i.taskId + (u + (i.attemptId + (u + i.runId))), j.taskId + (u + (j.attemptId + (u + j.runId))));
    if i.taskId == j.taskId {
      CancelPrefix(i.taskId, u + (i.attemptId + (u + i.runId)), u + (j.attemptId + (u + j.runId)));
      CancelPrefix(u, i.attemptId + (u + i.runId), j.attemptId + (u + j.runId));
      if i.attemptId == j.attemptId {
        CancelPrefix(i.attemptId, u + i.runId, u + j.runId);
        CancelPrefix(u, i.runId, j.runId);
      }
      if i.runId == j.runId { CancelSuffix(i.attemptId, j.attemptId, u + i.runId); }
    }
    if i.attemptId == j.attemptId && i.runId == j.runId { CancelSuffix(i.taskId, j.taskId, u + (i.attemptId + (u + i.runId))); }
  }

  lemma UnderscoreJoined(t: string, a: string, b: string, c: string)
    ensures t + a + "_" + b + "_" + c == t + (a + ("_" + (b + ("_" + c))))
  {
  }

  lemma CancelSuffix(a: string, b: string, s: string)
    requires a + s == b + s
    ensures a == b
  {
    assert |a| == |b|;
    assert (a + s)[..|a|] == a && (b + s)[..|b|] == b;
  }

  /** Both versions of the records of one run stand in one stream. */
  lemma VersionsShareStreams(i: Recorder.LoopIdentity, j: Identity)
    requires i.taskId == j.taskId && i.attemptId == j.attemptId && i.runId == j.runId
    ensures Recorder.StreamIdOf(i) == StreamIdOf(j)
  {
  }
}
