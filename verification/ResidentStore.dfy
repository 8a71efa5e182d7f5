/**
 The durable store of resident loop events: idempotent stable keys, appends
 guarded by the stream length and the global count, and tool request IDs that no
 later plan may use again. Any number of callers interleave at every await,
 other writers append beside them, and a caller may be abandoned at any point.
 */
module ResidentStore {
  import opened CanonicalJson
  import opened ResidentRecords
  import opened EventLedgers
  import opened Sequences

  // ---------- What the ledger holds ----------

  /** Events of the resident loop, resident domain events with the request ID of their locator, and all others. */
  datatype Body =
    | Resident(payload: Payload)
    | Domain(toolRequestId: Option<string>)
    | Unrelated(name: string)

  type Ledger = seq<Entry<Body>>

  /** The verdicts of the payload parser and of the event sequence validator. */
  datatype Validators = Validators(parses: Payload -> bool, accepts: Ledger -> bool)

  function StreamIdOf(i: Identity): string {
    "agent_resident_loop_" + i.taskId + "_" + i.attemptId + "_" + i.runId
  }

  function Home(p: Payload): string {
    StreamIdOf(ProvenanceOf(p).identity)
  }

  function StageName(s: Stage): string {
    match s
    case Requested => "requested"
    case HumanApproved => "human-approved"
    case Claimed => "claimed"
    case Completed => "completed"
    case OtherStage(name) => name
  }

  function CategoryName(c: SuspensionCategory): string {
    match c
    case ApprovalRequired => "approval-required"
    case EffectOutcomeUnknown => "effect-outcome-unknown"
    case OtherCategory(name) => name
  }

  function OutcomeKey(body: ResultBody): string {
    match body
    case HandoffRecorded(_, _) => "completed:handoff-recorded"
    case Resumable(category, _) => "resumable:" + CategoryName(category)
    case OtherResult(outcome, category, _) => outcome + ":" + CategoryName(category)
  }

  function StableKey(p: Payload): string {
    match p
    case PlanRecorded(plan) => "plan:" + plan.planId
    case ObservationRecorded(o) => "observation:" + o.observationId
    case ToolStepRecorded(t) =>
      "tool:" + t.step.toolRequestId + ":" + StageName(t.material.readbacks.stage) + ":" +
      if t.state == Executed then "executed" else "suspended"
    case LoopSuspended(s) => "suspension:" + s.checkpointEventId + ":" + CategoryName(s.category)
    case ResultRecorded(r) =>
      "result:" + r.planId + ":" + IntText(r.planRevision) + ":" + r.finalObservation.eventId + ":" + OutcomeKey(r.body)
  }

  predicate SameKind(p: Payload, q: Payload) {
    && p.PlanRecorded? == q.PlanRecorded?
    && p.ObservationRecorded? == q.ObservationRecorded?
    && p.ToolStepRecorded? == q.ToolStepRecorded?
    && p.LoopSuspended? == q.LoopSuspended?
  }

  /** The event already holds the stable key of the payload. */
  predicate Holds(e: Entry<Body>, p: Payload) {
    e.body.Resident? && SameKind(e.body.payload, p) && StableKey(e.body.payload) == StableKey(p)
  }

  predicate IsPlan(e: Entry<Body>) {
    e.body.Resident? && e.body.payload.PlanRecorded?
  }

  function StepIds(steps: seq<Step>): (r: seq<Option<string>>)
    ensures |r| == |steps| && forall k | 0 <= k < |r| :: r[k] == steps[k].toolRequestId
  {
    seq(|steps|, k requires 0 <= k < |steps| => steps[k].toolRequestId)
  }

  function RequestIds(e: Entry<Body>): seq<Option<string>>
    requires IsPlan(e)
  {
    StepIds(e.body.payload.plan.steps)
  }

  /** The request IDs that an event burns. */
  function BurnedBy(e: Entry<Body>): set<Option<string>> {
    if IsPlan(e) then set x | x in RequestIds(e)
    else if e.body.Domain? && e.body.toolRequestId.Some? then {e.body.toolRequestId}
    else {}
  }

  predicate Burned(es: Ledger, x: Option<string>) {
    exists e :: e in es && x in BurnedBy(e)
  }

  // ---------- The burned-ID check ----------

  datatype Failure =
    | NotParsed | KeyBindsOther | RepeatedRequestId | BurnedRequestId | Conflict | LedgerFailed | NoExactReread | InvalidPrefix

  function UnusedVerdict(requested: seq<Option<string>>, all: Ledger): Option<Failure> {
    if !Distinct(requested) then Some(RepeatedRequestId)
    else if exists k :: 0 <= k < |requested| && Burned(all, requested[k]) then Some(BurnedRequestId)
    else None
  }

  lemma {:induction false} SetSize<T>(s: seq<T>)
    ensures |set x | x in s| <= |s|
    ensures |set x | x in s| == |s| <==> Distinct(s)
  {
    if s != [] {
      var front, last := s[..|s| - 1], s[|s| - 1];
      SetSize(front);
      var all, fs := set x | x in s, set x | x in front;
      assert all == fs + {last};
      if last in fs {
        assert all == fs;
        var k :| 0 <= k < |front| && front[k] == last;
        assert s[k] == s[|s| - 1];
      } else {
        assert |all| == |fs| + 1;
        if Distinct(front) {
          forall i, j | 0 <= i < j < |s| ensures s[i] != s[j] { if j == |s| - 1 { assert s[i] in fs; } }
        } else {
          var i, j :| 0 <= i < j < |front| && front[i] == front[j];
          assert s[i] == s[j];
        }
      }
    }
  }

  /** The Set built over the whole ledger, and the two refusals that depend on it. */
  method CheckUnused(requested: seq<Option<string>>, all: Ledger) returns (failure: Option<Failure>)
    ensures failure == UnusedVerdict(requested, all)
  {
    SetSize(requested);
    if |set x | x in requested| != |requested| { return Some(RepeatedRequestId); }
    var burned: set<Option<string>> := {};
    var i := 0;
    while i < |all|
      invariant 0 <= i <= |all|
      invariant forall x :: x in burned <==> Burned(all[..i], x)
    {
      var e := all[i];
      burned := burned + BurnedBy(e);
      assert all[..i + 1] == all[..i] + [e];
      i := i + 1;
    }
    assert all[..i] == all;
    var k := 0;
    while k < |requested|
      invariant 0 <= k <= |requested|
      invariant forall j | 0 <= j < k :: !Burned(all, requested[j])
    {
      if requested[k] in burned { return Some(BurnedRequestId); }
      k := k + 1;
    }
    return None;
  }

  // ---------- One append as a process ----------

  datatype Phase =
    | Reading(payload: Payload, stream: Option<Ledger>, all: Option<Ledger>)
    | Appending(payload: Payload, seen: Ledger, seenAll: Ledger)
    | Rereading(payload: Payload, id: string)
    | Validating(payload: Payload, event: Entry<Body>)
    | Returned(payload: Payload, event: Entry<Body>)
    | Failed(failure: Failure)

  function Prior(stream: Ledger, p: Payload): Option<Entry<Body>> {
    Find(stream, (e: Entry<Body>) => Holds(e, p))
  }

  /** What a call does once it has both reads. */
  function Decision(p: Payload, stream: Ledger, all: Ledger): Phase {
    match Prior(stream, p)
    case Some(prior) => if prior.body.payload == p then Returned(p, prior) else Failed(KeyBindsOther)
    case None =>
      if !p.PlanRecorded? then Appending(p, stream, all)
      else
        match UnusedVerdict(StepIds(p.plan.steps), all)
        case Some(failure) => Failed(failure)
        case None => Appending(p, stream, all)
  }

  function Opening(v: Validators, p: Payload): Phase {
    var i := ProvenanceOf(p).identity;
    if i.residentAgentId != "agent_default" || !IdentityReadable(i) || !v.parses(p) then Failed(NotParsed)
    else Reading(p, None, None)
  }

  function ResidentEvents(es: Ledger): Ledger {
    if es == [] then [] else ResidentEvents(es[..|es| - 1]) + if es[|es| - 1].body.Resident? then [es[|es| - 1]] else []
  }

  function AfterReread(p: Payload, id: string, stream: Ledger): Phase {
    match Find(stream, (e: Entry<Body>) => e.id == id)
    case None => Failed(NoExactReread)
    case Some(e) => if e.body == Resident(p) then Validating(p, e) else Failed(NoExactReread)
  }

  function AfterValidation(v: Validators, p: Payload, e: Entry<Body>, stream: Ledger): Phase {
    if v.accepts(ResidentEvents(stream)) then Returned(p, e) else Failed(InvalidPrefix)
  }

  // ---------- All callers together ----------

  datatype World = World(ledger: Ledger, calls: map<nat, Phase>)

  datatype StepLabel =
    | Begin(caller: nat, payload: Payload)
    | ReadStream(caller: nat)
    | ReadAll(caller: nat)
    | Decide(caller: nat)
    | Append(caller: nat, id: string, acknowledged: bool)
    | AppendFails(caller: nat)
    | Reread(caller: nat)
    | Validate(caller: nat)
    | Abandon(caller: nat)
    | OtherWriter(id: string, streamId: string, body: Body)

  predicate Enabled(w: World, s: StepLabel) {
    match s
    case Begin(c, _) => c !in w.calls
    case ReadStream(c) => c in w.calls && w.calls[c].Reading? && w.calls[c].stream.None?
    case ReadAll(c) => c in w.calls && w.calls[c].Reading? && w.calls[c].all.None?
    case Decide(c) => c in w.calls && w.calls[c].Reading? && w.calls[c].stream.Some? && w.calls[c].all.Some?
    case Append(c, id, _) => c in w.calls && w.calls[c].Appending? && id !in Ids(w.ledger)
    case AppendFails(c) => c in w.calls && w.calls[c].Appending?
    case Reread(c) => c in w.calls && w.calls[c].Rereading?
    case Validate(c) => c in w.calls && w.calls[c].Validating?
    case Abandon(c) => c in w.calls
    case OtherWriter(id, _, body) => id !in Ids(w.ledger) && !body.Resident?
  }

  /** Where a call goes when it takes its own step. */
  function NextPhase(v: Validators, es: Ledger, ph: Phase, s: StepLabel): Phase {
    match s
    case ReadStream(_) => if ph.Reading? then ph.(stream := Some(Stream(es, Home(ph.payload)))) else ph
    case ReadAll(_) => if ph.Reading? then ph.(all := Some(es)) else ph
    case Decide(_) => if ph.Reading? && ph.stream.Some? && ph.all.Some? then Decision(ph.payload, ph.stream.value, ph.all.value) else ph
    case Append(_, id, acknowledged) =>
      if !ph.Appending? then ph
      else if !Admitted(es, ph) then Failed(Conflict)
      else if acknowledged then Rereading(ph.payload, id)
      else Failed(LedgerFailed)
    case AppendFails(_) => Failed(LedgerFailed)
    case Reread(_) => if ph.Rereading? then AfterReread(ph.payload, ph.id, Stream(es, Home(ph.payload))) else ph
    case Validate(_) => if ph.Validating? then AfterValidation(v, ph.payload, ph.event, Stream(es, Home(ph.payload))) else ph
    case _ => ph
  }

  /** The ledger takes the event: both counts read by the call are still the present ones. */
  predicate Admitted(es: Ledger, ph: Phase)
    requires ph.Appending?
  {
    CountsMatch(es, Home(ph.payload), Expected(Some(|ph.seen| + 1), Some(|ph.seenAll|)))
  }

  function NextLedger(w: World, s: StepLabel): Ledger
    requires Enabled(w, s)
  {
    match s
    case OtherWriter(id, streamId, body) => w.ledger + [NextEntry(w.ledger, id, streamId, body)]
    case Append(c, id, _) =>
      var ph := w.calls[c];
      if Admitted(w.ledger, ph) then w.ledger + [NextEntry(w.ledger, id, Home(ph.payload), Resident(ph.payload))] else w.ledger
    case _ => w.ledger
  }

  function NextCalls(v: Validators, w: World, s: StepLabel): map<nat, Phase>
    requires Enabled(w, s)
  {
    match s
    case Begin(c, p) => w.calls[c := Opening(v, p)]
    case Abandon(c) => w.calls - {c}
    case OtherWriter(_, _, _) => w.calls
    case _ => w.calls[s.caller := NextPhase(v, w.ledger, w.calls[s.caller], s)]
  }

  function Apply(v: Validators, w: World, s: StepLabel): World
    requires Enabled(w, s)
  {
    World(NextLedger(w, s), NextCalls(v, w, s))
  }

  predicate Run(v: Validators, ws: seq<World>, ss: seq<StepLabel>) {
    && |ws| == |ss| + 1
    && ws[0] == World([], map[])
    && forall i | 0 <= i < |ss| :: Enabled(ws[i], ss[i]) && ws[i + 1] == Apply(v, ws[i], ss[i])
  }

  // ---------- What every step keeps ----------

  /** No two resident events of one stream hold the same key. */
  predicate KeysUnique(es: Ledger) {
    forall i, j | 0 <= i < j < |es| && es[i].streamId == es[j].streamId && es[j].body.Resident? :: !Holds(es[i], es[j].body.payload)
  }

  predicate Unused(ids: seq<Option<string>>, es: Ledger) {
    Distinct(ids) && forall x | x in ids :: !Burned(es, x)
  }

  /** Every plan was recorded with distinct IDs, none of them burned before it. */
  predicate PlansUnused(es: Ledger) {
    forall j | 0 <= j < |es| && IsPlan(es[j]) :: Unused(RequestIds(es[j]), es[..j])
  }

  predicate AtHome(es: Ledger) {
    forall e | e in es && e.body.Resident? :: e.streamId == Home(e.body.payload)
  }

  predicate LedgerSafe(es: Ledger) {
    WellFormedLedger(es) && KeysUnique(es) && PlansUnused(es) && AtHome(es)
  }

  predicate Recorded(es: Ledger, p: Payload, e: Entry<Body>) {
    e in es && e.body == Resident(p) && e.streamId == Home(p)
  }

  predicate PhaseOk(es: Ledger, ph: Phase) {
    match ph
    case Reading(p, stream, all) =>
      && (stream.Some? ==> stream.value <= Stream(es, Home(p)))
      && (all.Some? ==> all.value <= es)
    case Appending(p, stream, all) =>
      && stream <= Stream(es, Home(p)) && all <= es
      && (forall e | e in stream :: !Holds(e, p))
      && (p.PlanRecorded? ==> Unused(StepIds(p.plan.steps), all))
    case Rereading(p, id) => exists e: Entry<Body> :: e in es && e.id == id && Recorded(es, p, e)
    case Validating(p, e) => Recorded(es, p, e)
    case Returned(p, e) => Recorded(es, p, e)
    case Failed(failure) => failure != NoExactReread
  }

  predicate StoreInvariant(w: World) {
    LedgerSafe(w.ledger) && forall c | c in w.calls :: PhaseOk(w.ledger, w.calls[c])
  }

  lemma PhaseSurvivesGrowth(es: Ledger, more: Ledger, ph: Phase)
    requires PhaseOk(es, ph)
    ensures PhaseOk(es + more, ph)
  {
    match ph
    case Reading(p, _, _) => StreamGrows(es, more, Home(p));
    case Appending(p, _, _) => StreamGrows(es, more, Home(p));
    case Rereading(p, id) =>
      var e: Entry<Body> :| e in es && e.id == id && Recorded(es, p, e);
      assert Recorded(es + more, p, e);
    case _ =>
  }

  /** An appended event keeps the ledger safe if its key is new to its stream and its plan's IDs are unused. */
  lemma AppendKeepsSafety(es: Ledger, e: Entry<Body>)
    requires LedgerSafe(es) && e.id !in Ids(es) && e.sequence == |Stream(es, e.streamId)| + 1
    requires e.body.Resident? ==> e.streamId == Home(e.body.payload) && forall f | f in Stream(es, e.streamId) :: !Holds(f, e.body.payload)
    requires IsPlan(e) ==> Unused(RequestIds(e), es)
    ensures LedgerSafe(es + [e])
  {
    AppendKeepsLedger(es, e);
    var all := es + [e];
    forall i, j | 0 <= i < j < |all| && all[i].streamId == all[j].streamId && all[j].body.Resident?
      ensures !Holds(all[i], all[j].body.payload)
    {
      if j == |es| { assert all[i] in Stream(es, e.streamId); }
    }
    forall j | 0 <= j < |all| && IsPlan(all[j]) ensures Unused(RequestIds(all[j]), all[..j]) {
      if j < |es| { assert all[..j] == es[..j]; } else { assert all[..j] == es; }
    }
  }

  lemma VerdictMeansUnused(ids: seq<Option<string>>, es: Ledger)
    ensures UnusedVerdict(ids, es) == None <==> Unused(ids, es)
  {
    if x :| x in ids && Burned(es, x) {
      var k :| 0 <= k < |ids| && ids[k] == x;
      assert Burned(es, ids[k]);
    }
  }

  lemma DecisionIsOk(es: Ledger, p: Payload, stream: Ledger, all: Ledger)
    requires AtHome(es) && stream <= Stream(es, Home(p)) && all <= es
    ensures PhaseOk(es, Decision(p, stream, all))
  {
    if p.PlanRecorded? { VerdictMeansUnused(StepIds(p.plan.steps), all); }
    match Prior(stream, p)
    case Some(prior) => assert prior in Stream(es, Home(p));
    case None =>
  }

  /** The reread by identifier finds exactly the event that was appended. */
  lemma RereadIsExact(es: Ledger, p: Payload, id: string)
    requires WellFormedLedger(es) && PhaseOk(es, Rereading(p, id))
    ensures PhaseOk(es, AfterReread(p, id, Stream(es, Home(p))))
    ensures AfterReread(p, id, Stream(es, Home(p))).Validating?
  {
    var e: Entry<Body> :| e in es && e.id == id && Recorded(es, p, e);
    var found := Find(Stream(es, Home(p)), (x: Entry<Body>) => x.id == id);
    assert e in Stream(es, Home(p));
    IdIsUnique(es, e, found.value);
  }

  lemma AdmittedAppendKeeps(es: Ledger, ph: Phase, id: string)
    requires LedgerSafe(es) && ph.Appending? && PhaseOk(es, ph) && Admitted(es, ph) && id !in Ids(es)
    ensures var e := NextEntry(es, id, Home(ph.payload), Resident(ph.payload));
            LedgerSafe(es + [e]) && Recorded(es + [e], ph.payload, e)
  {
    MatchingCountsMeanCurrent(es, ph.seen, ph.seenAll, Home(ph.payload));
    AppendKeepsSafety(es, NextEntry(es, id, Home(ph.payload), Resident(ph.payload)));
  }

  lemma PhasesSurvive(w: World, more: Ledger)
    requires StoreInvariant(w)
    ensures forall c | c in w.calls :: PhaseOk(w.ledger + more, w.calls[c])
  {
    forall c | c in w.calls ensures PhaseOk(w.ledger + more, w.calls[c]) {
      PhaseSurvivesGrowth(w.ledger, more, w.calls[c]);
    }
  }

  lemma AppendPhaseOk(v: Validators, es: Ledger, ph: Phase, s: StepLabel)
    requires s.Append? && ph.Appending?
    requires var e := NextEntry(es, s.id, Home(ph.payload), Resident(ph.payload));
             Admitted(es, ph) ==> Recorded(es + [e], ph.payload, e)
    ensures var e := NextEntry(es, s.id, Home(ph.payload), Resident(ph.payload));
            PhaseOk(if Admitted(es, ph) then es + [e] else es, NextPhase(v, es, ph, s))
  {
  }

  lemma AppendKeepsStore(v: Validators, w: World, s: StepLabel)
    requires StoreInvariant(w) && Enabled(w, s) && s.Append?
    ensures StoreInvariant(Apply(v, w, s))
  {
    var ph := w.calls[s.caller];
    var e := NextEntry(w.ledger, s.id, Home(ph.payload), Resident(ph.payload));
    assert PhaseOk(w.ledger, ph);
    if Admitted(w.ledger, ph) {
      AdmittedAppendKeeps(w.ledger, ph, s.id);
      PhasesSurvive(w, [e]);
    }
    AppendPhaseOk(v, w.ledger, ph, s);
  }

  lemma ReadKeepsStore(v: Validators, w: World, s: StepLabel)
    requires StoreInvariant(w) && Enabled(w, s)
    requires !s.Append? && !s.OtherWriter? && !s.Begin? && !s.Abandon?
    ensures PhaseOk(w.ledger, NextPhase(v, w.ledger, w.calls[s.caller], s))
  {
    var ph := w.calls[s.caller];
    match s
    case Decide(_) => DecisionIsOk(w.ledger, ph.payload, ph.stream.value, ph.all.value);
    case Reread(_) => RereadIsExact(w.ledger, ph.payload, ph.id);
    case _ =>
  }

  lemma StepKeepsStore(v: Validators, w: World, s: StepLabel)
    requires StoreInvariant(w) && Enabled(w, s)
    ensures StoreInvariant(Apply(v, w, s))
  {
    match s
    case Append(_, _, _) => AppendKeepsStore(v, w, s);
    case OtherWriter(id, streamId, body) =>
      var e := NextEntry(w.ledger, id, streamId, body);
      AppendKeepsSafety(w.ledger, e);
      PhasesSurvive(w, [e]);
    case Begin(_, _) =>
    case Abandon(_) =>
    case _ => ReadKeepsStore(v, w, s);
  }

  lemma {:induction false} RunKeepsStore(v: Validators, ws: seq<World>, ss: seq<StepLabel>, n: nat)
    requires Run(v, ws, ss) && n < |ws|
    ensures StoreInvariant(ws[n])
    decreases n
  {
    if n > 0 {
      RunKeepsStore(v, ws, ss, n - 1);
      StepKeepsStore(v, ws[n - 1], ss[n - 1]);
    }
  }

  // ---------- Main results ----------

  /** A request ID stands at one step position of one plan only. */
  predicate RequestIdsApart(es: Ledger) {
    forall i, j, k, l | 0 <= i < |es| && 0 <= j < |es| && IsPlan(es[i]) && IsPlan(es[j])
                        && 0 <= k < |RequestIds(es[i])| && 0 <= l < |RequestIds(es[j])| && (i, k) != (j, l) ::
      RequestIds(es[i])[k] != RequestIds(es[j])[l]
  }

  lemma UnusedMeansApart(es: Ledger)
    requires PlansUnused(es)
    ensures RequestIdsApart(es)
  {
    forall i, j, k, l | 0 <= i < |es| && 0 <= j < |es| && IsPlan(es[i]) && IsPlan(es[j])
                        && 0 <= k < |RequestIds(es[i])| && 0 <= l < |RequestIds(es[j])| && (i, k) != (j, l)
      ensures RequestIds(es[i])[k] != RequestIds(es[j])[l]
    {
      if i < j {
        LaterPlanIsUnused(es, i, j, RequestIds(es[i])[k]);
      } else if j < i {
        LaterPlanIsUnused(es, j, i, RequestIds(es[j])[l]);
      } else {
        assert Distinct(RequestIds(es[i]));
      }
    }
  }

  lemma LaterPlanIsUnused(es: Ledger, i: nat, j: nat, x: Option<string>)
    requires PlansUnused(es) && i < j < |es| && IsPlan(es[j]) && x in BurnedBy(es[i])
    ensures x !in RequestIds(es[j])
  {
    assert es[i] in es[..j];
    assert Burned(es[..j], x);
  }

  /**
   Safety of the store over every interleaving of appends, with reads that are
   not atomic: in one stream no two events have the same type and stable key,
   no request ID appears at two step positions of any plans, and no plan uses an
   ID that an earlier domain event burned.
   */
  lemma StoreSafety(v: Validators, ws: seq<World>, ss: seq<StepLabel>, n: nat)
    requires Run(v, ws, ss) && n < |ws|
    ensures KeysUnique(ws[n].ledger)
    ensures RequestIdsApart(ws[n].ledger)
    ensures forall i, j | 0 <= i < j < |ws[n].ledger| && IsPlan(ws[n].ledger[j])
                          && ws[n].ledger[i].body.Domain? && ws[n].ledger[i].body.toolRequestId.Some? ::
              ws[n].ledger[i].body.toolRequestId !in RequestIds(ws[n].ledger[j])
  {
    RunKeepsStore(v, ws, ss, n);
    var es := ws[n].ledger;
    UnusedMeansApart(es);
    forall i, j | 0 <= i < j < |es| && IsPlan(es[j]) && es[i].body.Domain? && es[i].body.toolRequestId.Some?
      ensures es[i].body.toolRequestId !in RequestIds(es[j])
    {
      LaterPlanIsUnused(es, i, j, es[i].body.toolRequestId);
    }
  }

  /** A call that returns has its exact payload recorded in its stream, and the exact reread never fails. */
  lemma ReturnedIsRecorded(v: Validators, ws: seq<World>, ss: seq<StepLabel>, n: nat, c: nat)
    requires Run(v, ws, ss) && n < |ws| && c in ws[n].calls
    ensures ws[n].calls[c] != Failed(NoExactReread)
    ensures ws[n].calls[c].Returned? ==> Recorded(ws[n].ledger, ws[n].calls[c].payload, ws[n].calls[c].event)
  {
    RunKeepsStore(v, ws, ss, n);
  }

  lemma HoldEachOther(a: Entry<Body>, b: Entry<Body>, p: Payload)
    requires Holds(a, p) && Holds(b, p)
    ensures Holds(a, b.body.payload) && Holds(b, a.body.payload)
  {
  }

  lemma OneHolder(es: Ledger, i: nat, j: nat, p: Payload)
    requires KeysUnique(es) && i < |es| && j < |es| && es[i].streamId == es[j].streamId
    requires Holds(es[i], p) && Holds(es[j], p)
    ensures i == j
  {
    HoldEachOther(es[i], es[j], p);
  }

  /** The same key is held once, so whoever holds it in a prefix of the stream is the one found. */
  lemma HolderIsFound(es: Ledger, stream: Ledger, p: Payload, e: Entry<Body>)
    requires LedgerSafe(es) && stream <= Stream(es, Home(p)) && e in stream && Holds(e, p)
    ensures Prior(stream, p) == Some(e)
  {
    var found := Prior(stream, p).value;
    assert found in Stream(es, Home(p)) && e in Stream(es, Home(p));
    var i :| 0 <= i < |es| && es[i] == found;
    var j :| 0 <= j < |es| && es[j] == e;
    OneHolder(es, i, j, p);
  }

  /** Whatever is recorded, or on its way to be, was accepted by the parser. */
  predicate Parsed(v: Validators, p: Payload) {
    Opening(v, p).Reading?
  }

  predicate CallParsed(v: Validators, ph: Phase) {
    (ph.Reading? || ph.Appending?) ==> Parsed(v, ph.payload)
  }

  predicate ParsedInvariant(v: Validators, w: World) {
    && (forall e | e in w.ledger && e.body.Resident? :: Parsed(v, e.body.payload))
    && (forall c | c in w.calls :: CallParsed(v, w.calls[c]))
  }

  lemma DecisionIsParsed(v: Validators, p: Payload, stream: Ledger, all: Ledger)
    requires Parsed(v, p)
    ensures CallParsed(v, Decision(p, stream, all))
  {
  }

  lemma PhaseStaysParsed(v: Validators, es: Ledger, ph: Phase, s: StepLabel)
    requires CallParsed(v, ph)
    ensures CallParsed(v, NextPhase(v, es, ph, s))
  {
    if s.Decide? && ph.Reading? && ph.stream.Some? && ph.all.Some? { DecisionIsParsed(v, ph.payload, ph.stream.value, ph.all.value); }
  }

  lemma CallsStayParsed(v: Validators, w: World, s: StepLabel)
    requires ParsedInvariant(v, w) && Enabled(w, s)
    ensures forall c | c in NextCalls(v, w, s) :: CallParsed(v, NextCalls(v, w, s)[c])
  {
    if !s.Begin? && !s.Abandon? && !s.OtherWriter? { PhaseStaysParsed(v, w.ledger, w.calls[s.caller], s); }
  }

  lemma LedgerStaysParsed(v: Validators, w: World, s: StepLabel)
    requires ParsedInvariant(v, w) && Enabled(w, s)
    ensures forall e | e in NextLedger(w, s) && e.body.Resident? :: Parsed(v, e.body.payload)
  {
    if s.Append? { assert CallParsed(v, w.calls[s.caller]); }
  }

  lemma {:induction false} RunKeepsParsed(v: Validators, ws: seq<World>, ss: seq<StepLabel>, n: nat)
    requires Run(v, ws, ss) && n < |ws|
    ensures ParsedInvariant(v, ws[n])
    decreases n
  {
    if n > 0 {
      RunKeepsParsed(v, ws, ss, n - 1);
      RunStep(v, ws, ss, n - 1);
      CallsStayParsed(v, ws[n - 1], ss[n - 1]);
      LedgerStaysParsed(v, ws[n - 1], ss[n - 1]);
    }
  }

  /** Where a call stands that began after e held its key. */
  predicate Repeating(p: Payload, e: Entry<Body>, ph: Phase) {
    match ph
    case Reading(q, stream, _) => q == p && (stream.Some? ==> e in stream.value)
    case Returned(q, found) => q == p && found == e && e.body == Resident(p)
    case Failed(failure) => (failure == NotParsed || failure == KeyBindsOther) && e.body != Resident(p)
    case _ => false
  }

  /** The call repeats the append of an event that holds its key. */
  predicate Repeats(w: World, p: Payload, e: Entry<Body>, c: nat) {
    && e in w.ledger && e.streamId == Home(p) && Holds(e, p)
    && c in w.calls && Repeating(p, e, w.calls[c])
  }

  /** The decision of a repeating call is made by e. */
  lemma RepeatingDecides(es: Ledger, p: Payload, stream: Ledger, all: Ledger, e: Entry<Body>)
    requires LedgerSafe(es) && stream <= Stream(es, Home(p)) && e in stream && Holds(e, p)
    ensures Decision(p, stream, all) == if e.body == Resident(p) then Returned(p, e) else Failed(KeyBindsOther)
  {
    HolderIsFound(es, stream, p, e);
  }

  lemma RepeatingStep(v: Validators, w: World, s: StepLabel, p: Payload, e: Entry<Body>, c: nat)
    requires StoreInvariant(w) && Enabled(w, s) && Repeats(w, p, e, c) && s != Abandon(c)
    ensures Repeats(Apply(v, w, s), p, e, c)
    ensures !s.Begin? && !s.OtherWriter? && s.caller == c ==> Apply(v, w, s).ledger == w.ledger
  {
    if s.Decide? && s.caller == c {
      RepeatingDecides(w.ledger, p, w.calls[c].stream.value, w.calls[c].all.value, e);
    }
  }

  lemma BeginRepeating(v: Validators, w: World, c: nat, p: Payload, e: Entry<Body>)
    requires Enabled(w, Begin(c, p)) && e in w.ledger && e.streamId == Home(p) && Holds(e, p)
    requires e.body == Resident(p) ==> Parsed(v, p)
    ensures Repeats(Apply(v, w, Begin(c, p)), p, e, c)
  {
  }

  lemma RunStep(v: Validators, ws: seq<World>, ss: seq<StepLabel>, k: nat)
    requires Run(v, ws, ss) && k < |ss|
    ensures Enabled(ws[k], ss[k]) && ws[k + 1] == Apply(v, ws[k], ss[k])
  {
  }

  lemma RepeatingRunStep(v: Validators, ws: seq<World>, ss: seq<StepLabel>, k: nat, p: Payload, e: Entry<Body>, c: nat)
    requires Run(v, ws, ss) && k < |ss| && Repeats(ws[k], p, e, c) && ss[k] != Abandon(c)
    ensures Repeats(ws[k + 1], p, e, c)
    ensures !ss[k].Begin? && !ss[k].OtherWriter? && ss[k].caller == c ==> ws[k + 1].ledger == ws[k].ledger
  {
    RunStep(v, ws, ss, k);
    RunKeepsStore(v, ws, ss, k);
    RepeatingStep(v, ws[k], ss[k], p, e, c);
  }

  /** The call stays where a repeating call may stand, as long as it is not abandoned. */
  lemma {:induction false} RepeatingStays(v: Validators, ws: seq<World>, ss: seq<StepLabel>, m: nat, n: nat, p: Payload, e: Entry<Body>, c: nat)
    requires Run(v, ws, ss) && m <= n < |ws| && Repeats(ws[m], p, e, c)
    requires forall k | m <= k < n :: ss[k] != Abandon(c)
    ensures Repeats(ws[n], p, e, c)
    decreases n
  {
    if m < n {
      RepeatingStays(v, ws, ss, m, n - 1, p, e, c);
      RepeatingRunStep(v, ws, ss, n - 1, p, e, c);
    }
  }

  /**
   A repeated append, whatever else is under way: let a call begin while an
   event of its stream holds its key. None of its own steps changes the ledger.
   If the payloads are equal it can end only by returning that very event; if
   they differ, only by failing.
   */
  lemma RepeatedAppend(v: Validators, ws: seq<World>, ss: seq<StepLabel>, i: nat, n: nat, c: nat, p: Payload, e: Entry<Body>)
    requires Run(v, ws, ss) && i < n < |ss|
    requires ss[i] == Begin(c, p) && forall k | i < k <= n :: ss[k] != Abandon(c)
    requires e in ws[i].ledger && e.streamId == Home(p) && Holds(e, p)
    ensures c in ws[n].calls
    ensures var ph := ws[n].calls[c];
            ph.Reading? || (if e.body == Resident(p) then ph == Returned(p, e) else ph == Failed(NotParsed) || ph == Failed(KeyBindsOther))
    ensures !ss[n].Begin? && !ss[n].OtherWriter? && ss[n].caller == c ==> ws[n + 1].ledger == ws[n].ledger
  {
    RunStep(v, ws, ss, i);
    RunKeepsParsed(v, ws, ss, i);
    BeginRepeating(v, ws[i], c, p, e);
    RepeatingStays(v, ws, ss, i + 1, n, p, e, c);
    RepeatingRunStep(v, ws, ss, n, p, e, c);
  }

  // ---------- What a replay reads ----------

  /** readReplay: the resident events of one stream, in ledger order. */
  function Replay(es: Ledger, streamId: string): Ledger {
    ResidentEvents(Stream(es, streamId))
  }

  lemma {:induction false} ResidentEventsOver(a: Ledger, b: Ledger)
    ensures ResidentEvents(a + b) == ResidentEvents(a) + ResidentEvents(b)
  {
    if b == [] {
      Empty(a);
    } else {
      SplitLast(a, b);
      ResidentEventsOver(a, b[..|b| - 1]);
    }
  }

  lemma ReplayOfOneMore(es: Ledger, e: Entry<Body>, streamId: string)
    ensures Replay(es + [e], streamId) ==
            Replay(es, streamId) + if e.streamId == streamId && e.body.Resident? then [e] else []
  {
    StreamOfOne(es, e, streamId);
    if e.streamId == streamId {
      ResidentEventsOver(Stream(es, streamId), [e]);
      Singleton(e);
      assert ResidentEvents([e]) == if e.body.Resident? then [e] else [];
    } else {
      Empty(Stream(es, streamId));
    }
  }

  /** What a step adds to the ledger, if anything. */
  function AddedBy(w: World, s: StepLabel): Option<Entry<Body>>
    requires Enabled(w, s)
  {
    match s
    case OtherWriter(id, streamId, body) => Some(NextEntry(w.ledger, id, streamId, body))
    case Append(c, id, _) =>
      var p := w.calls[c].payload;
      if Admitted(w.ledger, w.calls[c]) then Some(NextEntry(w.ledger, id, Home(p), Resident(p))) else None
    case _ => None
  }

  lemma LedgerGrowsBy(v: Validators, w: World, s: StepLabel)
    requires Enabled(w, s)
    ensures Apply(v, w, s).ledger == w.ledger + if AddedBy(w, s).Some? then [AddedBy(w, s).value] else []
    ensures AddedBy(w, s).Some? && AddedBy(w, s).value.body.Resident? ==> s.Append?
  {
  }

  /** One step adds at most one event to a replay, at its end, and only the append of a resident event of that stream does. */
  lemma ReplayStep(v: Validators, w: World, s: StepLabel, streamId: string)
    requires Enabled(w, s)
    ensures var before, after, added := Replay(w.ledger, streamId), Replay(Apply(v, w, s).ledger, streamId), AddedBy(w, s);
            if s.Append? && added.Some? && added.value.streamId == streamId then after == before + [added.value] else after == before
  {
    LedgerGrowsBy(v, w, s);
    var added := AddedBy(w, s);
    if added.Some? { ReplayOfOneMore(w.ledger, added.value, streamId); } else { Empty(w.ledger); }
  }

  /**
   A replay only ever grows at its end: what a loop has read of its stream stays
   the front of every later replay, whatever callers and other writers do.
   */
  lemma ReplayOnlyGrows(v: Validators, ws: seq<World>, ss: seq<StepLabel>, m: nat, n: nat, streamId: string)
    requires Run(v, ws, ss) && m <= n < |ws|
    ensures Replay(ws[m].ledger, streamId) <= Replay(ws[n].ledger, streamId)
  {
    var replays := seq(|ws|, k requires 0 <= k < |ws| => Replay(ws[k].ledger, streamId));
    forall k | 0 <= k < |ss| ensures replays[k] <= replays[k + 1] { ReplayRunStep(v, ws, ss, k, streamId); }
    FrontStays(replays, m, n);
  }

  lemma {:induction false} FrontStays<T>(rs: seq<seq<T>>, m: nat, n: nat)
    requires forall k | 0 <= k < |rs| - 1 :: rs[k] <= rs[k + 1]
    requires m <= n < |rs|
    ensures rs[m] <= rs[n]
    decreases n
  {
    if m < n {
      FrontStays(rs, m, n - 1);
      assert rs[n - 1] <= rs[n];
    }
  }

  lemma ReplayRunStep(v: Validators, ws: seq<World>, ss: seq<StepLabel>, k: nat, streamId: string)
    requires Run(v, ws, ss) && k < |ss|
    ensures Replay(ws[k].ledger, streamId) <= Replay(ws[k + 1].ledger, streamId)
  {
    RunStep(v, ws, ss, k);
    ReplayStep(v, ws[k], ss[k], streamId);
  }

  // ---------- Durable, and what becomes of the call ----------

  /** Between the append at step k and moment n the call was validated, on a stream that the validator takes as verdict says. */
  predicate Validated(v: Validators, ws: seq<World>, ss: seq<StepLabel>, k: nat, n: nat, c: nat, home: string, verdict: bool)
    requires n <= |ss| && |ss| <= |ws|
  {
    exists j :: k < j < n && ss[j] == Validate(c) && v.accepts(Replay(ws[j].ledger, home)) == verdict
  }

  /** Where a call stands after its append was admitted, given what has happened to it since. */
  predicate AfterAppend(p: Payload, acknowledged: bool, accepted: bool, refused: bool, ph: Phase) {
    match ph
    case Rereading(q, _) => q == p && acknowledged && !accepted && !refused
    case Validating(q, _) => q == p && acknowledged && !accepted && !refused
    case Returned(q, _) => q == p && acknowledged && accepted && !refused
    case Failed(failure) => !accepted && (if acknowledged then refused && failure == InvalidPrefix else !refused && failure == LedgerFailed)
    case _ => false
  }

  lemma ValidatedStep(v: Validators, ws: seq<World>, ss: seq<StepLabel>, k: nat, n: nat, c: nat, home: string, verdict: bool)
    requires k < n < |ss| && |ss| <= |ws|
    ensures Validated(v, ws, ss, k, n + 1, c, home, verdict) <==>
            Validated(v, ws, ss, k, n, c, home, verdict)
            || (ss[n] == Validate(c) && v.accepts(Replay(ws[n].ledger, home)) == verdict)
  {
    if j :| k < j < n + 1 && ss[j] == Validate(c) && v.accepts(Replay(ws[j].ledger, home)) == verdict {
      assert j == n || j < n;
    }
  }

  /** One step of anybody: only the call's own reread and validation move it on. */
  lemma AfterAppendStep(v: Validators, w: World, s: StepLabel, c: nat, p: Payload, acknowledged: bool, accepted: bool, refused: bool)
    requires StoreInvariant(w) && Enabled(w, s) && s != Abandon(c)
    requires c in w.calls && AfterAppend(p, acknowledged, accepted, refused, w.calls[c])
    ensures var now := v.accepts(Replay(w.ledger, Home(p)));
            && c in Apply(v, w, s).calls
            && AfterAppend(p, acknowledged, accepted || (s == Validate(c) && now), refused || (s == Validate(c) && !now), Apply(v, w, s).calls[c])
  {
    if s == Reread(c) { RereadIsExact(w.ledger, p, w.calls[c].id); }
  }

  /** Where the call of an admitted append stands at moment n. */
  predicate Followed(v: Validators, ws: seq<World>, ss: seq<StepLabel>, k: nat, n: nat, c: nat, p: Payload, acknowledged: bool)
    requires n <= |ss| && |ss| < |ws|
  {
    && c in ws[n].calls
    && AfterAppend(p, acknowledged, Validated(v, ws, ss, k, n, c, Home(p), true), Validated(v, ws, ss, k, n, c, Home(p), false), ws[n].calls[c])
  }

  lemma FollowedStep(v: Validators, ws: seq<World>, ss: seq<StepLabel>, k: nat, n: nat, c: nat, p: Payload, acknowledged: bool)
    requires Run(v, ws, ss) && k < n < |ss| && ss[n] != Abandon(c) && Followed(v, ws, ss, k, n, c, p, acknowledged)
    ensures Followed(v, ws, ss, k, n + 1, c, p, acknowledged)
  {
    RunStep(v, ws, ss, n);
    RunKeepsStore(v, ws, ss, n);
    AfterAppendStep(v, ws[n], ss[n], c, p, acknowledged, Validated(v, ws, ss, k, n, c, Home(p), true),
                    Validated(v, ws, ss, k, n, c, Home(p), false));
    ValidatedStep(v, ws, ss, k, n, c, Home(p), true);
    ValidatedStep(v, ws, ss, k, n, c, Home(p), false);
  }

  lemma FollowedFirst(v: Validators, ws: seq<World>, ss: seq<StepLabel>, k: nat, c: nat)
    requires Run(v, ws, ss) && k < |ss|
    requires ss[k].Append? && ss[k].caller == c && c in ws[k].calls && ws[k].calls[c].Appending? && Admitted(ws[k].ledger, ws[k].calls[c])
    ensures Followed(v, ws, ss, k, k + 1, c, ws[k].calls[c].payload, ss[k].acknowledged)
  {
    RunStep(v, ws, ss, k);
    AppendedPhase(v, ws[k], ss[k]);
  }

  lemma {:induction false} FollowedStays(
      v: Validators, ws: seq<World>, ss: seq<StepLabel>, k: nat, m: nat, n: nat, c: nat, p: Payload, acknowledged: bool)
    requires Run(v, ws, ss) && k < m <= n < |ws| && Followed(v, ws, ss, k, m, c, p, acknowledged)
    requires forall j | k < j < n :: ss[j] != Abandon(c)
    ensures Followed(v, ws, ss, k, n, c, p, acknowledged)
    decreases n
  {
    if m < n {
      FollowedStays(v, ws, ss, k, m, n - 1, c, p, acknowledged);
      FollowedStep(v, ws, ss, k, n - 1, c, p, acknowledged);
    }
  }

  lemma AppendedPhase(v: Validators, w: World, s: StepLabel)
    requires s.Append? && Enabled(w, s) && Admitted(w.ledger, w.calls[s.caller])
    ensures var p := w.calls[s.caller].payload;
            && s.caller in Apply(v, w, s).calls
            && AfterAppend(p, s.acknowledged, false, false, Apply(v, w, s).calls[s.caller])
            && Recorded(Apply(v, w, s).ledger, p, NextEntry(w.ledger, s.id, Home(p), Resident(p)))
  {
  }

  lemma {:induction false} EventsStay(v: Validators, ws: seq<World>, ss: seq<StepLabel>, m: nat, n: nat, e: Entry<Body>)
    requires Run(v, ws, ss) && m <= n < |ws| && e in ws[m].ledger
    ensures e in ws[n].ledger
    decreases n
  {
    if m < n {
      EventsStay(v, ws, ss, m, n - 1, e);
      RunStep(v, ws, ss, n - 1);
      LedgerGrowsBy(v, ws[n - 1], ss[n - 1]);
    }
  }

  /**
   Over every interleaving: an admitted append is durable from then on, and its
   call fails exactly when the ledger's acknowledgement was lost or the validator
   refused the stream as it was when the call validated it, with whatever others
   had appended by then; it returns exactly when it was validated and accepted.
   */
  lemma DurableAppendFailsExactly(v: Validators, ws: seq<World>, ss: seq<StepLabel>, k: nat, n: nat, c: nat)
    requires Run(v, ws, ss) && k < n < |ws|
    requires ss[k].Append? && ss[k].caller == c && c in ws[k].calls && ws[k].calls[c].Appending? && Admitted(ws[k].ledger, ws[k].calls[c])
    requires forall j | k < j < n :: ss[j] != Abandon(c)
    ensures c in ws[n].calls
    ensures var p := ws[k].calls[c].payload;
            && Recorded(ws[n].ledger, p, NextEntry(ws[k].ledger, ss[k].id, Home(p), Resident(p)))
            && (ws[n].calls[c].Failed? <==>
                  !ss[k].acknowledged ||
                  exists j :: k < j < n && ss[j] == Validate(c) && !v.accepts(Replay(ws[j].ledger, Home(p))))
            && (ws[n].calls[c].Returned? <==>
                  ss[k].acknowledged &&
                  exists j :: k < j < n && ss[j] == Validate(c) && v.accepts(Replay(ws[j].ledger, Home(p))))
  {
    var p := ws[k].calls[c].payload;
    FollowedFirst(v, ws, ss, k, c);
    FollowedStays(v, ws, ss, k, k + 1, n, c, p, ss[k].acknowledged);
    RunStep(v, ws, ss, k);
    AppendedPhase(v, ws[k], ss[k]);
    EventsStay(v, ws, ss, k + 1, n, NextEntry(ws[k].ledger, ss[k].id, Home(p), Resident(p)));
  }

  // ---------- A call on its own ----------

  /** What one append does to a ledger that nobody else touches meanwhile. */
  function AppendAlone(v: Validators, es: Ledger, p: Payload, id: string): (Ledger, Phase) {
    var stream := Stream(es, Home(p));
    var opening := Opening(v, p);
    if opening.Failed? then (es, opening)
    else
      var decision := Decision(p, stream, es);
      if !decision.Appending? then (es, decision)
      else
        var e := NextEntry(es, id, Home(p), Resident(p));
        (es + [e], AfterValidation(v, p, e, Stream(es + [e], Home(p))))
  }

  lemma DecisionIsAdmitted(es: Ledger, p: Payload)
    requires AtHome(es) && Decision(p, Stream(es, Home(p)), es).Appending?
    ensures var ph := Appending(p, Stream(es, Home(p)), es);
            Decision(p, Stream(es, Home(p)), es) == ph && PhaseOk(es, ph) && Admitted(es, ph)
  {
    DecisionIsOk(es, p, Stream(es, Home(p)), es);
  }

  lemma RereadOfRecorded(es: Ledger, p: Payload, e: Entry<Body>)
    requires WellFormedLedger(es) && Recorded(es, p, e)
    ensures AfterReread(p, e.id, Stream(es, Home(p))) == Validating(p, e)
  {
    RereadIsExact(es, p, e.id);
    IdIsUnique(es, e, AfterReread(p, e.id, Stream(es, Home(p))).event);
  }

  /** Undisturbed, an append that passes its checks is admitted, and its reread finds it. */
  lemma AloneSucceeds(es: Ledger, p: Payload, id: string)
    requires LedgerSafe(es) && id !in Ids(es)
    requires Decision(p, Stream(es, Home(p)), es).Appending?
    ensures var e := NextEntry(es, id, Home(p), Resident(p));
            && Decision(p, Stream(es, Home(p)), es) == Appending(p, Stream(es, Home(p)), es)
            && Admitted(es, Appending(p, Stream(es, Home(p)), es))
            && LedgerSafe(es + [e]) && Recorded(es + [e], p, e)
            && AfterReread(p, id, Stream(es + [e], Home(p))) == Validating(p, e)
  {
    DecisionIsAdmitted(es, p);
    AdmittedAppendKeeps(es, Appending(p, Stream(es, Home(p)), es), id);
    RereadOfRecorded(es + [NextEntry(es, id, Home(p), Resident(p))], p, NextEntry(es, id, Home(p), Resident(p)));
  }

  /** The checks before the append, in the order they are made. */
  method CheckBeforeAppend(p: Payload, stream: Ledger, all: Ledger) returns (decision: Phase)
    ensures decision == Decision(p, stream, all)
  {
    var prior := Prior(stream, p);
    if prior.Some? {
      return if prior.value.body.payload == p then Returned(p, prior.value) else Failed(KeyBindsOther);
    }
    if p.PlanRecorded? {
      var refused := CheckUnused(StepIds(p.plan.steps), all);
      if refused.Some? { return Failed(refused.value); }
    }
    return Appending(p, stream, all);
  }

  /** The append itself, on the mutable ledger. */
  method AppendResident(v: Validators, ledger: EventLedger<Body>, p: Payload, id: string) returns (outcome: Phase)
    requires LedgerSafe(ledger.entries) && id !in Ids(ledger.entries)
    modifies ledger
    ensures (ledger.entries, outcome) == AppendAlone(v, old(ledger.entries), p, id)
    ensures LedgerSafe(ledger.entries)
  {
    var opening := Opening(v, p);
    if opening.Failed? { return opening; }
    var stream, all := Stream(ledger.entries, Home(p)), ledger.entries;
    var decision := CheckBeforeAppend(p, stream, all);
    if !decision.Appending? { return decision; }
    AloneSucceeds(all, p, id);
    var appended := ledger.Append(id, Home(p), Resident(p), Expected(Some(|stream| + 1), Some(|all|)));
    if appended.None? { return Failed(Conflict); }
    var durable := Stream(ledger.entries, Home(p));
    var reread := AfterReread(p, id, durable);
    if !reread.Validating? { return reread; }
    return AfterValidation(v, p, reread.event, durable);
  }

  /** The first append has recorded its event, or has found it recorded. */
  predicate RecordedBy(after: Ledger, outcome: Phase, p: Payload, e: Entry<Body>) {
    LedgerSafe(after) && Recorded(after, p, e) && (outcome.Returned? ==> outcome.event == e)
  }

  lemma ValidationReturnsIt(v: Validators, p: Payload, e: Entry<Body>, stream: Ledger)
    ensures AfterValidation(v, p, e, stream).Returned? ==> AfterValidation(v, p, e, stream).event == e
  {
  }

  lemma FirstAppendRecords(es: Ledger, p: Payload, id: string, e: Entry<Body>, outcome: Phase)
    requires LedgerSafe(es) && id !in Ids(es) && Decision(p, Stream(es, Home(p)), es).Appending?
    requires e == NextEntry(es, id, Home(p), Resident(p)) && (outcome.Returned? ==> outcome.event == e)
    ensures RecordedBy(es + [e], outcome, p, e)
  {
    AloneSucceeds(es, p, id);
  }

  lemma FirstAppendFinds(v: Validators, es: Ledger, p: Payload, id: string)
    requires LedgerSafe(es) && Opening(v, p).Reading? && Decision(p, Stream(es, Home(p)), es).Returned?
    ensures AppendAlone(v, es, p, id) == (es, Decision(p, Stream(es, Home(p)), es))
    ensures RecordedBy(es, Decision(p, Stream(es, Home(p)), es), p, Decision(p, Stream(es, Home(p)), es).event)
  {
    DecisionIsOk(es, p, Stream(es, Home(p)), es);
  }

  lemma OpeningKinds(v: Validators, p: Payload)
    ensures Opening(v, p).Reading? || Opening(v, p) == Failed(NotParsed)
  {
  }

  lemma DecisionKinds(p: Payload, stream: Ledger, all: Ledger)
    ensures var d := Decision(p, stream, all); d.Appending? || d.Returned? || (d.Failed? && d.failure != InvalidPrefix)
  {
  }

  lemma AloneOtherwise(v: Validators, es: Ledger, p: Payload, id: string)
    requires !(Opening(v, p).Reading? && Decision(p, Stream(es, Home(p)), es).Appending?)
    ensures AppendAlone(v, es, p, id).1 == if Opening(v, p).Failed? then Opening(v, p) else Decision(p, Stream(es, Home(p)), es)
  {
    OpeningKinds(v, p);
  }

  lemma OutcomeTells(v: Validators, es: Ledger, p: Payload, id: string, outcome: Phase)
    requires outcome == AppendAlone(v, es, p, id).1 && (outcome.Returned? || outcome == Failed(InvalidPrefix))
    ensures Opening(v, p).Reading?
    ensures Decision(p, Stream(es, Home(p)), es).Appending? || Decision(p, Stream(es, Home(p)), es).Returned?
  {
    OpeningKinds(v, p);
    DecisionKinds(p, Stream(es, Home(p)), es);
    if !(Opening(v, p).Reading? && Decision(p, Stream(es, Home(p)), es).Appending?) { AloneOtherwise(v, es, p, id); }
  }

  /**
   Appending the same payload again returns the event recorded the first time
   and leaves the ledger as it is, even when the first append failed after the
   event was already durable.
   */
  lemma AppendIsIdempotent(v: Validators, es: Ledger, p: Payload, id: string, again: string)
    requires LedgerSafe(es) && id !in Ids(es)
    requires AppendAlone(v, es, p, id).1.Returned? || AppendAlone(v, es, p, id).1 == Failed(InvalidPrefix)
    ensures var (after, outcome) := AppendAlone(v, es, p, id);
            exists e :: e in after && RecordedBy(after, outcome, p, e) && AppendAlone(v, after, p, again) == (after, Returned(p, e))
  {
    OutcomeTells(v, es, p, id, AppendAlone(v, es, p, id).1);
    var e := NextEntry(es, id, Home(p), Resident(p));
    if Decision(p, Stream(es, Home(p)), es).Appending? {
      ValidationReturnsIt(v, p, e, Stream(es + [e], Home(p)));
      AppendsInTheEnd(v, es, p, id);
      FirstAppendRecords(es, p, id, e, AfterValidation(v, p, e, Stream(es + [e], Home(p))));
    } else {
      FirstAppendFinds(v, es, p, id);
      e := Decision(p, Stream(es, Home(p)), es).event;
    }
    RecordedIsReturned(v, AppendAlone(v, es, p, id).0, p, e, again);
  }

  lemma RecordedIsReturned(v: Validators, es: Ledger, p: Payload, e: Entry<Body>, id: string)
    requires LedgerSafe(es) && Recorded(es, p, e) && Opening(v, p).Reading?
    ensures AppendAlone(v, es, p, id) == (es, Returned(p, e))
  {
    HolderIsFound(es, Stream(es, Home(p)), p, e);
  }

  /**
   Undisturbed and acknowledged, an append is durable and still fails exactly when
   it passes every check up to the compare-and-append and the validator refuses
   the stream that it has extended.
   */
  lemma DurableYetFailed(v: Validators, es: Ledger, p: Payload, id: string)
    requires LedgerSafe(es) && id !in Ids(es)
    ensures var (after, outcome) := AppendAlone(v, es, p, id);
            var e := NextEntry(es, id, Home(p), Resident(p));
            outcome.Failed? && after != es <==>
            && Opening(v, p).Reading?
            && (forall f | f in Stream(es, Home(p)) :: !Holds(f, p))
            && (p.PlanRecorded? ==> Unused(StepIds(p.plan.steps), es))
            && !v.accepts(ResidentEvents(Stream(es, Home(p)) + [e]))
  {
    StreamOfOne(es, NextEntry(es, id, Home(p), Resident(p)), Home(p));
    AppendsWhen(es, p);
    AloneByCases(v, es, p, id, Opening(v, p), Decision(p, Stream(es, Home(p)), es));
  }

  lemma AloneByCases(v: Validators, es: Ledger, p: Payload, id: string, opening: Phase, decision: Phase)
    requires opening == Opening(v, p) && decision == Decision(p, Stream(es, Home(p)), es)
    ensures AppendAlone(v, es, p, id).0 != es <==> opening.Reading? && decision.Appending?
    ensures var e := NextEntry(es, id, Home(p), Resident(p));
            opening.Reading? && decision.Appending? ==> AppendAlone(v, es, p, id).1 == AfterValidation(v, p, e, Stream(es + [e], Home(p)))
  {
    assert es + [NextEntry(es, id, Home(p), Resident(p))] != es;
  }

  lemma NoPriorMeansNoHolder(stream: Ledger, p: Payload)
    ensures Prior(stream, p).None? <==> forall f | f in stream :: !Holds(f, p)
  {
  }

  lemma AppendsWhen(es: Ledger, p: Payload)
    ensures Decision(p, Stream(es, Home(p)), es).Appending? <==>
            (forall f | f in Stream(es, Home(p)) :: !Holds(f, p)) && (p.PlanRecorded? ==> Unused(StepIds(p.plan.steps), es))
  {
    NoPriorMeansNoHolder(Stream(es, Home(p)), p);
    if p.PlanRecorded? { VerdictMeansUnused(StepIds(p.plan.steps), es); }
    DecisionByPrior(p, Stream(es, Home(p)), es);
  }

  lemma DecisionByPrior(p: Payload, stream: Ledger, all: Ledger)
    ensures Decision(p, stream, all).Appending? <==>
            Prior(stream, p).None? && (p.PlanRecorded? ==> UnusedVerdict(StepIds(p.plan.steps), all).None?)
  {
  }

  /** The steps of a call taken one after the other, if each is enabled in turn. */
  function Drive(v: Validators, w: World, ss: seq<StepLabel>): Option<World>
    decreases |ss|
  {
    if ss == [] then Some(w)
    else if !Enabled(w, ss[0]) then None
    else Drive(v, Apply(v, w, ss[0]), ss[1..])
  }

  lemma DriveStep(v: Validators, es: Ledger, calls: map<nat, Phase>, c: nat, ph: Phase, s: StepLabel, ss: seq<StepLabel>)
    requires Enabled(World(es, calls[c := ph]), s)
    requires !s.Begin? && !s.Abandon? && !s.OtherWriter? && s.caller == c
    ensures Drive(v, World(es, calls[c := ph]), [s] + ss) ==
            Drive(v, World(NextLedger(World(es, calls[c := ph]), s), calls[c := NextPhase(v, es, ph, s)]), ss)
  {
    var w := World(es, calls[c := ph]);
    assert ([s] + ss)[1..] == ss;
    assert calls[c := ph][c := NextPhase(v, es, ph, s)] == calls[c := NextPhase(v, es, ph, s)];
  }

  lemma ReadsAlone(v: Validators, es: Ledger, calls: map<nat, Phase>, c: nat, p: Payload, ss: seq<StepLabel>)
    ensures var stream := Stream(es, Home(p));
            Drive(v, World(es, calls[c := Reading(p, None, None)]), [ReadAll(c)] + ([ReadStream(c)] + ([Decide(c)] + ss))) ==
            Drive(v, World(es, calls[c := Decision(p, stream, es)]), ss)
  {
    var stream := Stream(es, Home(p));
    DriveStep(v, es, calls, c, Reading(p, None, None), ReadAll(c), [ReadStream(c)] + ([Decide(c)] + ss));
    DriveStep(v, es, calls, c, Reading(p, None, Some(es)), ReadStream(c), [Decide(c)] + ss);
    DriveStep(v, es, calls, c, Reading(p, Some(stream), Some(es)), Decide(c), ss);
  }

  lemma AdmittedPhases(v: Validators, es: Ledger, ph: Phase, c: nat, id: string)
    requires ph.Appending? && Admitted(es, ph)
    ensures NextPhase(v, es, ph, Append(c, id, true)) == Rereading(ph.payload, id)
  {
  }

  lemma AppendStepAlone(v: Validators, es: Ledger, calls: map<nat, Phase>, c: nat, p: Payload, id: string, ss: seq<StepLabel>)
    requires LedgerSafe(es) && id !in Ids(es) && Decision(p, Stream(es, Home(p)), es).Appending?
    ensures var e := NextEntry(es, id, Home(p), Resident(p));
            Drive(v, World(es, calls[c := Appending(p, Stream(es, Home(p)), es)]), [Append(c, id, true)] + ss) ==
            Drive(v, World(es + [e], calls[c := Rereading(p, id)]), ss)
  {
    DecisionIsAdmitted(es, p);
    var ph := Appending(p, Stream(es, Home(p)), es);
    AdmittedPhases(v, es, ph, c, id);
    DriveStep(v, es, calls, c, ph, Append(c, id, true), ss);
  }

  lemma RereadsAlone(v: Validators, es: Ledger, calls: map<nat, Phase>, c: nat, p: Payload, e: Entry<Body>)
    requires AfterReread(p, e.id, Stream(es, Home(p))) == Validating(p, e)
    ensures Drive(v, World(es, calls[c := Rereading(p, e.id)]), [Reread(c)] + ([Validate(c)] + [])) ==
            Some(World(es, calls[c := AfterValidation(v, p, e, Stream(es, Home(p)))]))
  {
    DriveStep(v, es, calls, c, Rereading(p, e.id), Reread(c), [Validate(c)] + []);
    DriveStep(v, es, calls, c, Validating(p, e), Validate(c), []);
  }

  lemma BeginsAlone(v: Validators, w: World, c: nat, p: Payload, ss: seq<StepLabel>)
    requires c !in w.calls
    ensures Drive(v, w, [Begin(c, p)] + ss) == Drive(v, World(w.ledger, w.calls[c := Opening(v, p)]), ss)
  {
    assert ([Begin(c, p)] + ss)[1..] == ss;
  }

  lemma WritesAlone(v: Validators, es: Ledger, calls: map<nat, Phase>, c: nat, p: Payload, id: string)
    requires LedgerSafe(es) && id !in Ids(es) && Decision(p, Stream(es, Home(p)), es).Appending?
    ensures var e := NextEntry(es, id, Home(p), Resident(p));
            Drive(v, World(es, calls[c := Appending(p, Stream(es, Home(p)), es)]), [Append(c, id, true)] + ([Reread(c)] + ([Validate(c)] + []))) ==
            Some(World(es + [e], calls[c := AfterValidation(v, p, e, Stream(es + [e], Home(p)))]))
  {
    AloneSucceeds(es, p, id);
    AppendStepAlone(v, es, calls, c, p, id, [Reread(c)] + ([Validate(c)] + []));
    RereadsAlone(v, es + [NextEntry(es, id, Home(p), Resident(p))], calls, c, p, NextEntry(es, id, Home(p), Resident(p)));
  }

  /** A caller whose seven steps nobody interrupts leaves what the append leaves on its own. */
  lemma UninterruptedIsAlone(v: Validators, w: World, c: nat, p: Payload, id: string)
    requires LedgerSafe(w.ledger) && c !in w.calls && id !in Ids(w.ledger)
    requires Opening(v, p).Reading? && Decision(p, Stream(w.ledger, Home(p)), w.ledger).Appending?
    ensures var (after, outcome) := AppendAlone(v, w.ledger, p, id);
            Drive(v, w, [Begin(c, p), ReadAll(c), ReadStream(c), Decide(c), Append(c, id, true), Reread(c), Validate(c)]) ==
            Some(World(after, w.calls[c := outcome]))
  {
    var writes := [Append(c, id, true)] + ([Reread(c)] + ([Validate(c)] + []));
    var readings := [ReadAll(c)] + ([ReadStream(c)] + ([Decide(c)] + writes));
    SevenSteps(c, p, id);
    BeginsAlone(v, w, c, p, readings);
    ReadsAlone(v, w.ledger, w.calls, c, p, writes);
    AppendsInTheEnd(v, w.ledger, p, id);
    DecisionIsAdmitted(w.ledger, p);
    WritesAlone(v, w.ledger, w.calls, c, p, id);
  }

  lemma SevenSteps(c: nat, p: Payload, id: string)
    ensures [Begin(c, p), ReadAll(c), ReadStream(c), Decide(c), Append(c, id, true), Reread(c), Validate(c)] ==
            [Begin(c, p)] + ([ReadAll(c)] + ([ReadStream(c)] + ([Decide(c)] + ([Append(c, id, true)] + ([Reread(c)] + ([Validate(c)] + []))))))
  {
  }

  lemma AppendsInTheEnd(v: Validators, es: Ledger, p: Payload, id: string)
    requires Opening(v, p).Reading? && Decision(p, Stream(es, Home(p)), es).Appending?
    ensures var e := NextEntry(es, id, Home(p), Resident(p));
            AppendAlone(v, es, p, id) == (es + [e], AfterValidation(v, p, e, Stream(es + [e], Home(p))))
  {
  }
}
