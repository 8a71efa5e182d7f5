/**
 The recorder of plans and observations in their first version: two operations
 that read one stream, look for an earlier record with the same key, and append
 guarded by the length of that stream alone. Any number of calls interleave.
 */
module ResidentRecorder {
  import opened CanonicalJson
  import opened EventLedgers

  datatype StepBudget = StepBudget(maxSteps: int, remainingSteps: int, contextBytes: int)

  /** The fields that sameIdentity compares, which are all an identity has. */
  datatype LoopIdentity = LoopIdentity(
    residentAgentId: string,
    taskId: string,
    attemptId: string,
    runId: string,
    policyId: string,
    policyVersion: string,
    policyHash: string,
    authorityHash: string,
    causationEventId: string,
    correlationId: string,
    sourceEventIds: seq<string>,
    contextArtifactHashes: seq<string>,
    budget: StepBudget)

  datatype Plan = Plan(identity: LoopIdentity, revision: int, descriptorHash: string)

  datatype Observation = Observation(
    identity: LoopIdentity,
    planEventId: string,
    readbackTask: string,
    readbackAttempt: string,
    readbackRun: string,
    ordinal: int,
    category: string,
    hash: string)

  datatype Body = PlanRecorded(plan: Plan) | ObservationRecorded(observation: Observation) | Unrelated(name: string)

  type Event = Entry<Body>
  type Ledger = seq<Event>

  datatype Request =
    | RecordPlan(identity: LoopIdentity, revision: int, descriptorHash: string)
    | RecordObservation(identity: LoopIdentity, planEventId: string, ordinal: int, category: string, hash: string)

  function StreamIdOf(i: LoopIdentity): string {
    "agent_resident_loop_" + i.taskId + "_" + i.attemptId + "_" + i.runId
  }

  predicate NoBar(s: string) { '|' !in s }

  /** The part of the event schema that matters here: identifiers are built from letters, digits, hyphens and underscores. */
  predicate IdentifiersClean(i: LoopIdentity) {
    NoBar(i.taskId) && NoBar(i.attemptId) && NoBar(i.runId)
  }

  function BodyOf(r: Request): Body {
    match r
    case RecordPlan(identity, revision, descriptorHash) => PlanRecorded(Plan(identity, revision, descriptorHash))
    case RecordObservation(i, planEventId, ordinal, category, hash) =>
      ObservationRecorded(Observation(i, planEventId, i.taskId, i.attemptId, i.runId, ordinal, category, hash))
  }

  // ---------- Reading a stream ----------

  predicate IsPlan(e: Event) { e.body.PlanRecorded? }

  predicate IsObservation(e: Event) { e.body.ObservationRecorded? }

  predicate Supersedes(later: Event, plan: Event)
    requires IsPlan(plan)
  {
    && IsPlan(later) && later.id != plan.id
    && later.body.plan.identity == plan.body.plan.identity
    && later.body.plan.revision > plan.body.plan.revision
  }

  predicate Superseded(plan: Event, events: Ledger)
    requires IsPlan(plan)
  {
    exists e :: e in events && Supersedes(e, plan)
  }

  /** The event already holds the idempotency key of the request. */
  predicate Matches(e: Event, r: Request) {
    match r
    case RecordPlan(identity, revision, _) =>
      IsPlan(e) && e.body.plan.revision == revision && e.body.plan.identity.policyHash == identity.policyHash
    case RecordObservation(_, planEventId, ordinal, category, _) =>
      && IsObservation(e) && e.body.observation.planEventId == planEventId
      && e.body.observation.ordinal == ordinal && e.body.observation.category == category
  }

  function Matching(stream: Ledger, r: Request): Option<Event> {
    Find(stream, (e: Event) => Matches(e, r))
  }

  /** samePlan and sameObservation: everything the request says is what the event says. */
  predicate SameRecord(e: Event, r: Request) {
    match r
    case RecordPlan(identity, revision, descriptorHash) =>
      IsPlan(e) && e.body.plan == Plan(identity, revision, descriptorHash)
    case RecordObservation(identity, planEventId, ordinal, category, hash) =>
      && IsObservation(e)
      && e.body.observation.identity == identity && e.body.observation.planEventId == planEventId
      && e.body.observation.ordinal == ordinal && e.body.observation.category == category
      && e.body.observation.hash == hash
  }

  function PlanById(stream: Ledger, id: string): Option<Event> {
    Find(stream, (e: Event) => e.id == id && IsPlan(e))
  }

  datatype Failure = KeyBindsOther | SupersededPlan | NoPlanReadback | Conflict | LedgerFailed | NoExactReadback

  /** What stands in the way of an observation, in the order it is checked. */
  function Refusal(stream: Ledger, r: Request): Option<Failure> {
    if r.RecordPlan? then None
    else
      match PlanById(stream, r.planEventId)
      case None => Some(NoPlanReadback)
      case Some(plan) =>
        if plan.body.plan.identity != r.identity then Some(NoPlanReadback)
        else if Superseded(plan, stream) then Some(SupersededPlan)
        else None
  }

  // ---------- Calls as processes ----------

  datatype Phase =
    | Reading(request: Request)
    | Appending(request: Request, seen: Ledger)
    | Rereading(request: Request, id: string)
    | Returned(request: Request, event: Event)
    | Failed(failure: Failure)

  function Decision(stream: Ledger, r: Request): Phase {
    match Refusal(stream, r)
    case Some(failure) => Failed(failure)
    case None =>
      match Matching(stream, r)
      case Some(e) => if SameRecord(e, r) then Returned(r, e) else Failed(KeyBindsOther)
      case None => Appending(r, stream)
  }

  predicate Admitted(es: Ledger, ph: Phase)
    requires ph.Appending?
  {
    CountsMatch(es, StreamIdOf(ph.request.identity), Expected(Some(|ph.seen| + 1), None))
  }

  function Readback(stream: Ledger, r: Request, id: string): Phase {
    match Find(stream, (e: Event) => e.id == id && (if r.RecordPlan? then IsPlan(e) else IsObservation(e)))
    case None => Failed(NoExactReadback)
    case Some(e) => if SameRecord(e, r) then Returned(r, e) else Failed(NoExactReadback)
  }

  datatype World = World(ledger: Ledger, calls: map<nat, Phase>)

  datatype StepLabel =
    | Begin(caller: nat, request: Request)
    | Read(caller: nat)
    | Append(caller: nat, id: string, acknowledged: bool)
    | AppendFails(caller: nat)
    | Reread(caller: nat)
    | Abandon(caller: nat)
    | OtherWriter(id: string, streamId: string, name: string)

  /** The ledger validates what it appends: identifiers are clean, and event identifiers are fresh. */
  predicate Enabled(w: World, s: StepLabel) {
    match s
    case Begin(c, _) => c !in w.calls
    case Read(c) => c in w.calls && w.calls[c].Reading?
    case Append(c, id, _) =>
      c in w.calls && w.calls[c].Appending? && id !in Ids(w.ledger) && NoBar(id) && IdentifiersClean(w.calls[c].request.identity)
    case AppendFails(c) => c in w.calls && w.calls[c].Appending?
    case Reread(c) => c in w.calls && w.calls[c].Rereading?
    case Abandon(c) => c in w.calls
    case OtherWriter(id, _, _) => id !in Ids(w.ledger)
  }

  function NextPhase(es: Ledger, ph: Phase, s: StepLabel): Phase {
    match s
    case Read(_) => if ph.Reading? then Decision(Stream(es, StreamIdOf(ph.request.identity)), ph.request) else ph
    case Append(_, id, acknowledged) =>
      if !ph.Appending? then ph
      else if !Admitted(es, ph) then Failed(Conflict)
      else if acknowledged then Rereading(ph.request, id)
      else Failed(LedgerFailed)
    case AppendFails(_) => Failed(LedgerFailed)
    case Reread(_) => if ph.Rereading? then Readback(Stream(es, StreamIdOf(ph.request.identity)), ph.request, ph.id) else ph
    case _ => ph
  }

  function EventFor(es: Ledger, r: Request, id: string): Event {
    NextEntry(es, id, StreamIdOf(r.identity), BodyOf(r))
  }

  function NextLedger(w: World, s: StepLabel): Ledger
    requires Enabled(w, s)
  {
    match s
    case OtherWriter(id, streamId, name) => w.ledger + [NextEntry(w.ledger, id, streamId, Unrelated(name))]
    case Append(c, id, _) =>
      if Admitted(w.ledger, w.calls[c]) then w.ledger + [EventFor(w.ledger, w.calls[c].request, id)] else w.ledger
    case _ => w.ledger
  }

  function NextCalls(w: World, s: StepLabel): map<nat, Phase>
    requires Enabled(w, s)
  {
    match s
    case Begin(c, r) => w.calls[c := Reading(r)]
    case Abandon(c) => w.calls - {c}
    case OtherWriter(_, _, _) => w.calls
    case _ => w.calls[s.caller := NextPhase(w.ledger, w.calls[s.caller], s)]
  }

  function Apply(w: World, s: StepLabel): World
    requires Enabled(w, s)
  {
    World(NextLedger(w, s), NextCalls(w, s))
  }

  predicate Run(ws: seq<World>, ss: seq<StepLabel>) {
    && |ws| == |ss| + 1
    && ws[0] == World([], map[])
    && forall i | 0 <= i < |ss| :: Enabled(ws[i], ss[i]) && ws[i + 1] == Apply(ws[i], ss[i])
  }

  // ---------- What every ledger built this way satisfies ----------

  /** The request that would have written the event. */
  function RequestOf(e: Event): Request
    requires !e.body.Unrelated?
  {
    match e.body
    case PlanRecorded(p) => RecordPlan(p.identity, p.revision, p.descriptorHash)
    case ObservationRecorded(o) => RecordObservation(o.identity, o.planEventId, o.ordinal, o.category, o.hash)
  }

  /** An observation's plan stands before it in its own stream, with its identity, not superseded by then. */
  predicate PlanStands(before: Ledger, e: Event, plan: Event) {
    && plan in before && IsPlan(plan) && IsObservation(e)
    && plan.id == e.body.observation.planEventId && plan.streamId == e.streamId
    && plan.body.plan.identity == e.body.observation.identity
    && !Superseded(plan, before)
  }

  /** The record was new where it was appended. */
  predicate RecordOk(before: Ledger, e: Event) {
    e.body.Unrelated? ||
    (&& BodyOf(RequestOf(e)) == e.body
     && e.streamId == StreamIdOf(RequestOf(e).identity)
     && IdentifiersClean(RequestOf(e).identity) && NoBar(e.id)
     && (forall f | f in before && f.streamId == e.streamId :: !Matches(f, RequestOf(e)))
     && (IsObservation(e) ==> exists plan :: plan in before && PlanStands(before, e, plan)))
  }

  predicate LedgerRecorded(es: Ledger) {
    WellFormedLedger(es) && forall i | 0 <= i < |es| :: RecordOk(es[..i], es[i])
  }

  predicate RecordedFor(es: Ledger, r: Request, e: Event) {
    e in es && e.body == BodyOf(r) && e.streamId == StreamIdOf(r.identity)
  }

  predicate PhaseOk(es: Ledger, ph: Phase) {
    match ph
    case Reading(_) => true
    case Appending(r, seen) =>
      seen <= Stream(es, StreamIdOf(r.identity)) && Refusal(seen, r) == None && forall e | e in seen :: !Matches(e, r)
    case Rereading(r, id) => exists e: Event :: e in es && e.id == id && RecordedFor(es, r, e)
    case Returned(r, e) => e in es && SameRecord(e, r)
    case Failed(failure) => failure != NoExactReadback
  }

  predicate RecorderInvariant(w: World) {
    LedgerRecorded(w.ledger) && forall c | c in w.calls :: PhaseOk(w.ledger, w.calls[c])
  }

  lemma PhasesSurvive(w: World, more: Ledger)
    requires RecorderInvariant(w)
    ensures forall c | c in w.calls :: PhaseOk(w.ledger + more, w.calls[c])
  {
    forall c | c in w.calls ensures PhaseOk(w.ledger + more, w.calls[c]) {
      PhaseSurvivesGrowth(w.ledger, more, w.calls[c]);
    }
  }

  lemma PhaseSurvivesGrowth(es: Ledger, more: Ledger, ph: Phase)
    requires PhaseOk(es, ph)
    ensures PhaseOk(es + more, ph)
  {
    match ph
    case Appending(r, _) => StreamGrows(es, more, StreamIdOf(r.identity));
    case Rereading(r, id) =>
      var e: Event :| e in es && e.id == id && RecordedFor(es, r, e);
      assert e in es + more && RecordedFor(es + more, r, e);
    case _ =>
  }

  lemma AppendKeepsRecords(es: Ledger, e: Event)
    requires LedgerRecorded(es) && e.id !in Ids(es) && e.sequence == |Stream(es, e.streamId)| + 1
    requires RecordOk(es, e)
    ensures LedgerRecorded(es + [e])
  {
    AppendKeepsLedger(es, e);
    var all := es + [e];
    forall i | 0 <= i < |all| ensures RecordOk(all[..i], all[i]) {
      if i < |es| { assert all[..i] == es[..i]; } else { assert all[..i] == es; }
    }
  }

  /** Whoever supersedes a plan shares its stream, so the stream alone decides. */
  lemma SupersededInStream(es: Ledger, plan: Event)
    requires LedgerRecorded(es) && plan in es && IsPlan(plan)
    ensures Superseded(plan, es) <==> Superseded(plan, Stream(es, plan.streamId))
  {
    AtItsStream(es, plan);
    if e :| e in es && Supersedes(e, plan) {
      AtItsStream(es, e);
      assert e in Stream(es, plan.streamId);
    }
  }

  lemma AtItsStream(es: Ledger, e: Event)
    requires LedgerRecorded(es) && e in es && !e.body.Unrelated?
    ensures e.streamId == StreamIdOf(RequestOf(e).identity)
    ensures IdentifiersClean(RequestOf(e).identity) && NoBar(e.id)
  {
    var i :| 0 <= i < |es| && es[i] == e;
    assert RecordOk(es[..i], es[i]);
  }

  lemma ObservationStands(es: Ledger, r: Request, id: string)
    requires LedgerRecorded(es) && r.RecordObservation? && Refusal(Stream(es, StreamIdOf(r.identity)), r) == None
    ensures exists plan :: plan in es && PlanStands(es, EventFor(es, r, id), plan)
  {
    var stream := Stream(es, StreamIdOf(r.identity));
    var plan := PlanById(stream, r.planEventId).value;
    assert plan in stream && plan in es;
    SupersededInStream(es, plan);
    assert PlanStands(es, EventFor(es, r, id), plan);
  }

  lemma AdmittedAppendKeeps(es: Ledger, ph: Phase, id: string)
    requires LedgerRecorded(es) && ph.Appending? && PhaseOk(es, ph) && Admitted(es, ph)
    requires id !in Ids(es) && NoBar(id) && IdentifiersClean(ph.request.identity)
    ensures var e := EventFor(es, ph.request, id);
            LedgerRecorded(es + [e]) && RecordedFor(es + [e], ph.request, e)
  {
    var r, e := ph.request, EventFor(es, ph.request, id);
    assert ph.seen == Stream(es, e.streamId);
    assert RequestOf(e) == r;
    if r.RecordObservation? { ObservationStands(es, r, id); }
    assert RecordOk(es, e);
    AppendKeepsRecords(es, e);
  }

  lemma AppendPhaseOk(es: Ledger, ph: Phase, s: StepLabel)
    requires s.Append? && ph.Appending?
    requires Admitted(es, ph) ==> RecordedFor(es + [EventFor(es, ph.request, s.id)], ph.request, EventFor(es, ph.request, s.id))
    ensures PhaseOk(if Admitted(es, ph) then es + [EventFor(es, ph.request, s.id)] else es, NextPhase(es, ph, s))
  {
  }

  lemma AppendKeepsRecorder(w: World, s: StepLabel)
    requires RecorderInvariant(w) && Enabled(w, s) && s.Append?
    ensures RecorderInvariant(Apply(w, s))
  {
    var ph := w.calls[s.caller];
    assert PhaseOk(w.ledger, ph);
    if Admitted(w.ledger, ph) {
      AdmittedAppendKeeps(w.ledger, ph, s.id);
      PhasesSurvive(w, [EventFor(w.ledger, ph.request, s.id)]);
    }
    AppendPhaseOk(w.ledger, ph, s);
  }

  lemma DecisionIsOk(es: Ledger, r: Request)
    ensures PhaseOk(es, Decision(Stream(es, StreamIdOf(r.identity)), r))
  {
  }

  lemma ReadbackIsExact(es: Ledger, r: Request, id: string)
    requires WellFormedLedger(es) && PhaseOk(es, Rereading(r, id))
    ensures Readback(Stream(es, StreamIdOf(r.identity)), r, id).Returned?
    ensures PhaseOk(es, Readback(Stream(es, StreamIdOf(r.identity)), r, id))
  {
    var stream := Stream(es, StreamIdOf(r.identity));
    var e: Event :| e in es && e.id == id && RecordedFor(es, r, e);
    assert e in stream;
    var found := Find(stream, (x: Event) => x.id == id && (if r.RecordPlan? then IsPlan(x) else IsObservation(x)));
    IdIsUnique(es, e, found.value);
  }

  lemma StepKeepsRecorder(w: World, s: StepLabel)
    requires RecorderInvariant(w) && Enabled(w, s)
    ensures RecorderInvariant(Apply(w, s))
  {
    match s
    case Append(_, _, _) => AppendKeepsRecorder(w, s);
    case OtherWriter(id, streamId, name) =>
      var e := NextEntry(w.ledger, id, streamId, Unrelated(name));
      AppendKeepsRecords(w.ledger, e);
      PhasesSurvive(w, [e]);
    case Read(c) => DecisionIsOk(w.ledger, w.calls[c].request);
    case Reread(c) => ReadbackIsExact(w.ledger, w.calls[c].request, w.calls[c].id);
    case _ =>
  }

  /** Every ledger that concurrent recordPlan and recordObservation calls can build. */
  lemma {:induction false} RunKeepsRecorder(ws: seq<World>, ss: seq<StepLabel>, n: nat)
    requires Run(ws, ss) && n < |ws|
    ensures RecorderInvariant(ws[n])
    decreases n
  {
    if n > 0 {
      RunKeepsRecorder(ws, ss, n - 1);
      StepKeepsRecorder(ws[n - 1], ss[n - 1]);
    }
  }

  // ---------- A call on its own ----------

  /** What one recordPlan or recordObservation does to a ledger that nobody else touches meanwhile. */
  function RecordAlone(es: Ledger, r: Request, id: string): (Ledger, Phase) {
    var decision := Decision(Stream(es, StreamIdOf(r.identity)), r);
    if decision.Appending? then (es + [EventFor(es, r, id)], Returned(r, EventFor(es, r, id))) else (es, decision)
  }

  lemma DecisionIsAdmitted(es: Ledger, r: Request)
    requires Decision(Stream(es, StreamIdOf(r.identity)), r).Appending?
    ensures var ph := Appending(r, Stream(es, StreamIdOf(r.identity)));
            Decision(Stream(es, StreamIdOf(r.identity)), r) == ph && PhaseOk(es, ph) && Admitted(es, ph)
  {
    DecisionIsOk(es, r);
  }

  lemma ReadbackOfRecorded(es: Ledger, r: Request, e: Event)
    requires WellFormedLedger(es) && RecordedFor(es, r, e)
    ensures Readback(Stream(es, StreamIdOf(r.identity)), r, e.id) == Returned(r, e)
  {
    ReadbackIsExact(es, r, e.id);
    IdIsUnique(es, e, Readback(Stream(es, StreamIdOf(r.identity)), r, e.id).event);
    ReadbackKeepsId(Stream(es, StreamIdOf(r.identity)), r, e.id);
  }

  lemma ReadbackKeepsId(stream: Ledger, r: Request, id: string)
    ensures Readback(stream, r, id).Returned? ==> Readback(stream, r, id).event.id == id && Readback(stream, r, id).request == r
  {
  }

  lemma AppendedIsReadBack(es: Ledger, r: Request, id: string)
    requires LedgerRecorded(es) && id !in Ids(es) && NoBar(id) && IdentifiersClean(r.identity)
    requires Decision(Stream(es, StreamIdOf(r.identity)), r).Appending?
    ensures var e := EventFor(es, r, id);
            && LedgerRecorded(es + [e])
            && Readback(Stream(es + [e], StreamIdOf(r.identity)), r, id) == Returned(r, e)
  {
    DecisionIsAdmitted(es, r);
    AdmittedAppendKeeps(es, Appending(r, Stream(es, StreamIdOf(r.identity))), id);
    ReadbackOfRecorded(es + [EventFor(es, r, id)], r, EventFor(es, r, id));
  }

  /** The operation itself, on the mutable ledger. */
  method Record(ledger: EventLedger<Body>, r: Request, id: string) returns (outcome: Phase)
    requires LedgerRecorded(ledger.entries) && id !in Ids(ledger.entries) && NoBar(id) && IdentifiersClean(r.identity)
    modifies ledger
    ensures (ledger.entries, outcome) == RecordAlone(old(ledger.entries), r, id)
    ensures LedgerRecorded(ledger.entries)
  {
    var existing := Stream(ledger.entries, StreamIdOf(r.identity));
    var decision := Decision(existing, r);
    if !decision.Appending? { return decision; }
    AppendedIsReadBack(ledger.entries, r, id);
    var appended := ledger.Append(id, StreamIdOf(r.identity), BodyOf(r), Expected(Some(|existing| + 1), None));
    if appended.None? { return Failed(Conflict); }
    return Readback(Stream(ledger.entries, StreamIdOf(r.identity)), r, id);
  }

  // ---------- Repeating a record ----------

  lemma InPrefix<T>(s: seq<T>, i: nat, j: nat)
    requires i < |s| && j <= |s|
    ensures i < j ==> s[i] in s[..j]
  {
  }

  /** A stream holds an idempotency key at most once. */
  lemma KeyHeldOnce(es: Ledger, a: Event, b: Event)
    requires LedgerRecorded(es) && a in es && b in es && a.streamId == b.streamId
    requires !a.body.Unrelated? && Matches(b, RequestOf(a))
    ensures a == b
  {
    var i :| 0 <= i < |es| && es[i] == a;
    var j :| 0 <= j < |es| && es[j] == b;
    assert RecordOk(es[..i], es[i]) && RecordOk(es[..j], es[j]);
    assert Matches(a, RequestOf(b));
    InPrefix(es, i, j);
    InPrefix(es, j, i);
  }

  /** Asking again for a record that stands returns the recorded event itself, unless its plan has been superseded since. */
  lemma RepeatedRecord(es: Ledger, r: Request, e: Event)
    requires LedgerRecorded(es) && RecordedFor(es, r, e)
    ensures var stream := Stream(es, StreamIdOf(r.identity));
            Decision(stream, r) ==
              if r.RecordObservation? && exists plan :: plan in es && plan.body.PlanRecorded? && plan.id == r.planEventId && Outdated(es, plan)
              then Failed(SupersededPlan) else Returned(r, e)
  {
    forall plan: Event | plan.body.PlanRecorded? ensures Superseded(plan, es) <==> Outdated(es, plan) { SupersededIsOutdated(es, plan); }
    var stream := Stream(es, StreamIdOf(r.identity));
    assert e in stream && RequestOf(e) == r && Matches(e, r) && SameRecord(e, r);
    var found := Matching(stream, r);
    KeyHeldOnce(es, e, found.value);
    if r.RecordObservation? { RefusalOfRecorded(es, r, e); }
  }

  lemma RefusalOfRecorded(es: Ledger, r: Request, e: Event)
    requires LedgerRecorded(es) && RecordedFor(es, r, e) && r.RecordObservation?
    ensures var stream := Stream(es, StreamIdOf(r.identity));
            Refusal(stream, r) ==
              if exists plan :: plan in es && IsPlan(plan) && plan.id == r.planEventId && Superseded(plan, es)
              then Some(SupersededPlan) else None
  {
    var stream := Stream(es, StreamIdOf(r.identity));
    var i :| 0 <= i < |es| && es[i] == e;
    assert RecordOk(es[..i], es[i]);
    var plan :| plan in es[..i] && PlanStands(es[..i], e, plan);
    assert plan in es && plan in stream;
    IdIsUnique(es, plan, PlanById(stream, r.planEventId).value);
    SupersededInStream(es, plan);
    forall other | other in es && other.id == r.planEventId ensures other == plan { IdIsUnique(es, other, plan); }
  }

  // ---------- What a call answers, in terms of the records ----------

  /** The ledger holds a later revision of the plan of the same identity: the plan is outdated. */
  predicate Outdated(es: Ledger, plan: Event)
    requires plan.body.PlanRecorded?
  {
    exists q :: q in es && q.body.PlanRecorded? && q.id != plan.id
                && q.body.plan.identity == plan.body.plan.identity && q.body.plan.revision > plan.body.plan.revision
  }

  /** The event is the plan that the request names, with the identity of the request. */
  predicate NamedPlan(e: Event, r: Request)
    requires r.RecordObservation?
  {
    e.body.PlanRecorded? && e.id == r.planEventId && e.body.plan.identity == r.identity
  }

  lemma SupersededIsOutdated(es: Ledger, plan: Event)
    requires plan.body.PlanRecorded?
    ensures Superseded(plan, es) <==> Outdated(es, plan)
  {
    if q :| q in es && q.body.PlanRecorded? && q.id != plan.id
            && q.body.plan.identity == plan.body.plan.identity && q.body.plan.revision > plan.body.plan.revision {
      assert Supersedes(q, plan);
    }
  }

  /** The request has been recorded under its key, with the same contents or with others. */
  predicate KeyTaken(stream: Ledger, r: Request, exactly: bool) {
    match r
    case RecordPlan(identity, revision, descriptorHash) =>
      exists e :: e in stream && e.body.PlanRecorded? && e.body.plan.revision == revision && e.body.plan.identity.policyHash == identity.policyHash
                  && exactly == (e.body.plan.identity == identity && e.body.plan.descriptorHash == descriptorHash)
    case RecordObservation(identity, planEventId, ordinal, category, hash) =>
      exists e :: e in stream && e.body.ObservationRecorded? && e.body.observation.planEventId == planEventId
                  && e.body.observation.ordinal == ordinal && e.body.observation.category == category
                  && exactly == (e.body.observation.identity == identity && e.body.observation.hash == hash)
  }

  lemma RefusalExactly(es: Ledger, r: Request)
    requires LedgerRecorded(es) && r.RecordObservation?
    ensures var stream := Stream(es, StreamIdOf(r.identity));
            Refusal(stream, r) ==
            if !(exists p :: p in stream && NamedPlan(p, r)) then Some(NoPlanReadback)
            else if exists p :: p in stream && NamedPlan(p, r) && Outdated(stream, p) then Some(SupersededPlan)
            else None
  {
    var stream := Stream(es, StreamIdOf(r.identity));
    forall p | p in stream && p.id == r.planEventId && IsPlan(p) ensures PlanById(stream, r.planEventId) == Some(p) {
      IdIsUnique(es, p, PlanById(stream, r.planEventId).value);
    }
    if PlanById(stream, r.planEventId).Some? { SupersededIsOutdated(stream, PlanById(stream, r.planEventId).value); }
  }

  lemma MatchingExactly(es: Ledger, r: Request)
    requires LedgerRecorded(es)
    ensures var stream := Stream(es, StreamIdOf(r.identity));
            && (Matching(stream, r).Some? && SameRecord(Matching(stream, r).value, r) <==> KeyTaken(stream, r, true))
            && (Matching(stream, r).Some? && !SameRecord(Matching(stream, r).value, r) <==> KeyTaken(stream, r, false))
  {
    var stream := Stream(es, StreamIdOf(r.identity));
    forall e | e in stream && Matches(e, r) ensures Matching(stream, r) == Some(e) {
      var found := Matching(stream, r).value;
      assert Matches(found, RequestOf(e));
      KeyHeldOnce(es, e, found);
    }
  }

  /**
   What a call finds out with a fresh read, in the order of its checks. An
   observation is refused as superseded exactly when the plan it names, of its
   own identity, has a later revision; as unbound exactly when there is no such
   plan. Then the key decides: it returns what is recorded under it if that says
   the same, refuses if it says something else, and appends if there is nothing.
   */
  lemma AnswersByTheRecords(es: Ledger, r: Request)
    requires LedgerRecorded(es)
    ensures var stream, d := Stream(es, StreamIdOf(r.identity)), Decision(Stream(es, StreamIdOf(r.identity)), r);
            if r.RecordObservation? && !(exists p :: p in stream && NamedPlan(p, r)) then d == Failed(NoPlanReadback)
            else if r.RecordObservation? && (exists p :: p in stream && NamedPlan(p, r) && Outdated(stream, p)) then d == Failed(SupersededPlan)
            else if KeyTaken(stream, r, true) then d.Returned? && d.event in stream
            else if KeyTaken(stream, r, false) then d == Failed(KeyBindsOther)
            else d == Appending(r, stream)
  {
    if r.RecordObservation? { RefusalExactly(es, r); }
    MatchingExactly(es, r);
  }

  /**
   In every run each observation was recorded behind a plan of its stream and
   identity that it names, and no later revision of that plan stood before it.
   */
  lemma ObservationsBindCurrentPlans(ws: seq<World>, ss: seq<StepLabel>, n: nat, k: nat)
    requires Run(ws, ss) && n < |ws| && k < |ws[n].ledger| && ws[n].ledger[k].body.ObservationRecorded?
    ensures var o, before := ws[n].ledger[k], ws[n].ledger[..k];
            exists p :: p in before && p.body.PlanRecorded? && p.id == o.body.observation.planEventId && p.streamId == o.streamId
                        && p.body.plan.identity == o.body.observation.identity && !Outdated(before, p)
  {
    RunKeepsRecorder(ws, ss, n);
    var o, before := ws[n].ledger[k], ws[n].ledger[..k];
    assert RecordOk(before, o);
    var p :| p in before && PlanStands(before, o, p);
    SupersededIsOutdated(before, p);
  }

  // ---------- What becomes of a call ----------

  lemma RunStep(ws: seq<World>, ss: seq<StepLabel>, k: nat)
    requires Run(ws, ss) && k < |ss|
    ensures Enabled(ws[k], ss[k]) && ws[k + 1] == Apply(ws[k], ss[k])
  {
  }

  /** The call has read back what it recorded, between step k and moment n. */
  predicate ReadSince(ss: seq<StepLabel>, k: nat, n: nat, c: nat)
    requires n <= |ss|
  {
    exists j :: k < j < n && ss[j] == Reread(c)
  }

  /** Where a call stands whose event was recorded. */
  predicate AfterAppend(r: Request, id: string, acknowledged: bool, reread: bool, ph: Phase) {
    if !acknowledged then ph == Failed(LedgerFailed)
    else if reread then ph.Returned? && ph.request == r && ph.event.id == id
    else ph == Rereading(r, id)
  }

  lemma AfterAppendStep(w: World, s: StepLabel, c: nat, r: Request, id: string, acknowledged: bool, reread: bool)
    requires RecorderInvariant(w) && Enabled(w, s) && s != Abandon(c) && c in w.calls
    requires AfterAppend(r, id, acknowledged, reread, w.calls[c])
    ensures c in Apply(w, s).calls && AfterAppend(r, id, acknowledged, reread || s == Reread(c), Apply(w, s).calls[c])
  {
    if s == Reread(c) {
      assert PhaseOk(w.ledger, w.calls[c]);
      ReadbackIsExact(w.ledger, r, id);
      ReadbackKeepsId(Stream(w.ledger, StreamIdOf(r.identity)), r, id);
    }
  }

  lemma ReadSinceStep(ss: seq<StepLabel>, k: nat, n: nat, c: nat)
    requires k < n < |ss|
    ensures ReadSince(ss, k, n + 1, c) <==> ReadSince(ss, k, n, c) || ss[n] == Reread(c)
  {
    if j :| k < j < n + 1 && ss[j] == Reread(c) { assert j == n || j < n; }
  }

  /** Where the call of an event recorded at step k stands at moment n. */
  predicate Followed(ws: seq<World>, ss: seq<StepLabel>, k: nat, n: nat, c: nat, r: Request, id: string, acknowledged: bool)
    requires n <= |ss| < |ws|
  {
    c in ws[n].calls && AfterAppend(r, id, acknowledged, ReadSince(ss, k, n, c), ws[n].calls[c])
  }

  lemma FollowedFirst(ws: seq<World>, ss: seq<StepLabel>, k: nat, c: nat)
    requires Run(ws, ss) && k < |ss|
    requires ss[k].Append? && ss[k].caller == c && c in ws[k].calls && ws[k].calls[c].Appending? && Admitted(ws[k].ledger, ws[k].calls[c])
    ensures Followed(ws, ss, k, k + 1, c, ws[k].calls[c].request, ss[k].id, ss[k].acknowledged)
  {
    RunStep(ws, ss, k);
  }

  lemma FollowedStep(ws: seq<World>, ss: seq<StepLabel>, k: nat, n: nat, c: nat, r: Request, id: string, acknowledged: bool)
    requires Run(ws, ss) && k < n < |ss| && ss[n] != Abandon(c) && Followed(ws, ss, k, n, c, r, id, acknowledged)
    ensures Followed(ws, ss, k, n + 1, c, r, id, acknowledged)
  {
    RunStep(ws, ss, n);
    RunKeepsRecorder(ws, ss, n);
    AfterAppendStep(ws[n], ss[n], c, r, id, acknowledged, ReadSince(ss, k, n, c));
    ReadSinceStep(ss, k, n, c);
  }

  lemma {:induction false} FollowedStays(ws: seq<World>, ss: seq<StepLabel>, k: nat, m: nat, n: nat, c: nat, r: Request, id: string, acknowledged: bool)
    requires Run(ws, ss) && k < m <= n < |ws| && Followed(ws, ss, k, m, c, r, id, acknowledged)
    requires forall j | k < j < n :: ss[j] != Abandon(c)
    ensures Followed(ws, ss, k, n, c, r, id, acknowledged)
    decreases n
  {
    if m < n {
      FollowedStays(ws, ss, k, m, n - 1, c, r, id, acknowledged);
      FollowedStep(ws, ss, k, n - 1, c, r, id, acknowledged);
    }
  }

  /**
   Over every interleaving: the call of an event that was recorded fails exactly
   when the ledger's acknowledgement was lost; otherwise it returns that event as
   soon as it has read it back.
   */
  lemma RecordedCallExactly(ws: seq<World>, ss: seq<StepLabel>, k: nat, n: nat, c: nat)
    requires Run(ws, ss) && k < n < |ws|
    requires ss[k].Append? && ss[k].caller == c && c in ws[k].calls && ws[k].calls[c].Appending? && Admitted(ws[k].ledger, ws[k].calls[c])
    requires forall j | k < j < n :: ss[j] != Abandon(c)
    ensures c in ws[n].calls
    ensures ws[n].calls[c].Failed? <==> !ss[k].acknowledged
    ensures ws[n].calls[c].Returned? <==> ss[k].acknowledged && exists j :: k < j < n && ss[j] == Reread(c)
    ensures ws[n].calls[c].Returned? ==> ws[n].calls[c].request == ws[k].calls[c].request && ws[n].calls[c].event.id == ss[k].id
  {
    FollowedFirst(ws, ss, k, c);
    FollowedStays(ws, ss, k, k + 1, n, c, ws[k].calls[c].request, ss[k].id, ss[k].acknowledged);
  }

  /** A call whose event was not recorded fails, by conflict exactly when its stream had grown since it was read. */
  lemma RefusedAppendExactly(ws: seq<World>, ss: seq<StepLabel>, k: nat, c: nat)
    requires Run(ws, ss) && k < |ss| && (ss[k].Append? || ss[k].AppendFails?) && ss[k].caller == c
    ensures c in ws[k].calls && ws[k].calls[c].Appending? && c in ws[k + 1].calls
    ensures var ph := ws[k].calls[c];
            var grown := Stream(ws[k].ledger, StreamIdOf(ph.request.identity)) != ph.seen;
            && (ss[k].AppendFails? ==> ws[k + 1].calls[c] == Failed(LedgerFailed) && ws[k + 1].ledger == ws[k].ledger)
            && (ss[k].Append? ==> (ws[k + 1].calls[c] == Failed(Conflict) <==> grown) && (ws[k + 1].ledger == ws[k].ledger <==> grown))
  {
    RunStep(ws, ss, k);
    RunKeepsRecorder(ws, ss, k);
    var ph := ws[k].calls[c];
    assert PhaseOk(ws[k].ledger, ph);
    AdmittedIsUngrown(ws[k].ledger, ph);
    if ss[k].Append? && Admitted(ws[k].ledger, ph) { assert ws[k + 1].ledger[|ws[k].ledger|].id == ss[k].id; }
  }

  lemma AdmittedIsUngrown(es: Ledger, ph: Phase)
    requires ph.Appending? && PhaseOk(es, ph)
    ensures Admitted(es, ph) <==> Stream(es, StreamIdOf(ph.request.identity)) == ph.seen
  {
  }
}
