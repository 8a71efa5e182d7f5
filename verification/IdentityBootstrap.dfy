/**
 The bootstrap of the default resident identity: the chain of checks that reads
 its lifecycle from one stream, the ensure operation that appends the first
 event guarded by the stream length, and the race of any number of ensure calls
 for any workspaces.
 */
module IdentityBootstrap {
  import opened CanonicalJson
  import opened EventLedgers

  const AGENT := "agent_default"
  const IDENTITY_STREAM := "agent_identity_agent_default"
  const LABEL := "Cestus Agent"
  const POLICY := "agent_policy_default"
  const MEMORY_VERSION := "0.1.0"

  datatype Actor = Actor(kind: string, id: string, displayName: string)

  datatype Body =
    | Initialized(
        residentAgentId: string, workspaceId: string, agentLabel: string, policyId: string,
        initializedBy: string, allowedRunTypes: Option<seq<string>>, memoryProjectionVersion: string, actor: Actor)
    | Updated(residentAgentId: string)
    | OtherType(name: string)

  type Event = Entry<Body>
  type Events = seq<Event>

  /** The approved run types, and whether a text passes the secret and provider screening. */
  datatype Config = Config(runTypes: seq<string>, screened: string -> bool)

  datatype Reason =
    | Unreadable | OtherStream | UnsupportedEvents | UpdateFirst | DuplicateInitialization | NotContiguous
    | UnexpectedAgent | OtherWorkspace | NotCanonical | BadProvenance | UpdateOfOtherAgent
    | ActorNotPermitted | NotInitialized | NotVerified

  datatype Lifecycle = NotMounted | Ready(eventId: string) | Blocked(reason: Reason, initialized: bool, eventIds: seq<string>)

  // ---------- Reading the lifecycle ----------

  predicate Permitted(config: Config, a: Actor) {
    (a.kind == "system" || a.kind == "human") && config.screened(a.id) && config.screened(a.displayName)
  }

  function IdsOf(events: Events): seq<string> {
    seq(|events|, i requires 0 <= i < |events| => events[i].id)
  }

  function Initializations(events: Events): (r: Events)
    ensures forall e | e in r :: e in events && e.body.Initialized?
  {
    if events == [] then []
    else (if events[0].body.Initialized? then [events[0]] else []) + Initializations(events[1..])
  }

  predicate CanonicalContract(config: Config, b: Body)
    requires b.Initialized?
  {
    b.agentLabel == LABEL && b.policyId == POLICY && b.memoryProjectionVersion == MEMORY_VERSION
    && b.allowedRunTypes == Some(config.runTypes)
  }

  predicate ValidProvenance(config: Config, b: Body)
    requires b.Initialized?
  {
    b.actor.id == b.initializedBy && Permitted(config, b.actor)
  }

  predicate Contiguous(events: Events) {
    forall i | 0 <= i < |events| :: events[i].sequence == i + 1
  }

  predicate DefaultUpdates(events: Events) {
    forall e | e in events && e.body.Updated? :: e.body.residentAgentId == AGENT
  }

  function Refuse(reason: Reason, events: Events): Lifecycle {
    Blocked(reason, reason == OtherWorkspace, IdsOf(events))
  }

  /** readDefaultResidentIdentityLifecycle on the stream it read, check by check. */
  function ReadLifecycle(config: Config, events: Events, workspaceId: string): Lifecycle {
    var inits := Initializations(events);
    if events == [] then NotMounted
    else if exists e :: e in events && e.streamId != IDENTITY_STREAM then Refuse(OtherStream, events)
    else if exists e :: e in events && e.body.OtherType? then Refuse(UnsupportedEvents, events)
    else if !events[0].body.Initialized? then Refuse(UpdateFirst, events)
    else if |inits| != 1 then Refuse(DuplicateInitialization, inits)
    else
      var init := inits[0];
      if init.sequence != 1 || !Contiguous(events) || (exists e :: e in events && e.body.Updated? && e.sequence <= init.sequence)
      then Refuse(NotContiguous, events)
      else if init.body.residentAgentId != AGENT then Refuse(UnexpectedAgent, inits)
      else if init.body.workspaceId != workspaceId then Refuse(OtherWorkspace, [init])
      else if !CanonicalContract(config, init.body) then Refuse(NotCanonical, [init])
      else if !ValidProvenance(config, init.body) then Refuse(BadProvenance, [init])
      else if !DefaultUpdates(events) then Refuse(UpdateOfOtherAgent, events)
      else Ready(init.id)
  }

  // ---------- What ready means ----------

  predicate GoodInitialization(config: Config, e: Event, workspaceId: string) {
    && e.body.Initialized? && e.streamId == IDENTITY_STREAM && e.sequence == 1
    && e.body.residentAgentId == AGENT && e.body.workspaceId == workspaceId
    && CanonicalContract(config, e.body) && ValidProvenance(config, e.body)
  }

  predicate GoodUpdate(e: Event, position: nat) {
    e.body == Updated(AGENT) && e.streamId == IDENTITY_STREAM && e.sequence == position + 1
  }

  predicate GoodStream(config: Config, events: Events, workspaceId: string) {
    && events != [] && GoodInitialization(config, events[0], workspaceId)
    && forall i | 0 < i < |events| :: GoodUpdate(events[i], i)
  }

  lemma {:induction false} InitializationsAfterFirst(events: Events)
    ensures Initializations(events) == [] <==> forall e | e in events :: !e.body.Initialized?
  {
    if events != [] { InitializationsAfterFirst(events[1..]); }
  }

  lemma OneInitialization(events: Events)
    requires events != [] && events[0].body.Initialized?
    ensures Initializations(events)[0] == events[0]
    ensures |Initializations(events)| == 1 <==> forall i | 0 < i < |events| :: !events[i].body.Initialized?
  {
    var rest := events[1..];
    InitializationsAfterFirst(rest);
    assert forall i | 0 < i < |events| :: events[i] == rest[i - 1];
  }

  /**
   All the checks together: a stream reads as ready for a workspace exactly when
   it is one canonical initialization for that workspace followed by contiguous
   updates of the default agent.
   */
  lemma ReadyExactlyWhenGood(config: Config, events: Events, workspaceId: string)
    ensures ReadLifecycle(config, events, workspaceId).Ready? <==> GoodStream(config, events, workspaceId)
    ensures ReadLifecycle(config, events, workspaceId).NotMounted? <==> events == []
    ensures GoodStream(config, events, workspaceId) ==> ReadLifecycle(config, events, workspaceId) == Ready(events[0].id)
  {
    if events != [] && events[0].body.Initialized? {
      OneInitialization(events);
      if ReadLifecycle(config, events, workspaceId).Ready? { ReadyIsGood(config, events, workspaceId); }
      if GoodStream(config, events, workspaceId) { GoodIsReady(config, events, workspaceId); }
    }
  }

  lemma ReadyIsGood(config: Config, events: Events, workspaceId: string)
    requires ReadLifecycle(config, events, workspaceId).Ready?
    ensures GoodStream(config, events, workspaceId)
  {
    OneInitialization(events);
    forall i | 0 < i < |events| ensures GoodUpdate(events[i], i) {
      assert events[i] in events;
    }
  }

  lemma GoodIsReady(config: Config, events: Events, workspaceId: string)
    requires GoodStream(config, events, workspaceId)
    ensures ReadLifecycle(config, events, workspaceId) == Ready(events[0].id)
  {
    OneInitialization(events);
    forall e | e in events ensures e.streamId == IDENTITY_STREAM && !e.body.OtherType? {
      var i :| 0 <= i < |events| && events[i] == e;
      assert i > 0 ==> GoodUpdate(events[i], i);
    }
    assert DefaultUpdates(events) by {
      forall e | e in events && e.body.Updated? ensures e.body.residentAgentId == AGENT && e.sequence > 1 {
        var i :| 0 <= i < |events| && events[i] == e;
        assert i > 0 ==> GoodUpdate(events[i], i);
      }
    }
  }

  /** One more event keeps a stream ready exactly when it is a contiguous update of the default agent. */
  lemma ReadinessPreserved(config: Config, events: Events, e: Event, workspaceId: string)
    requires ReadLifecycle(config, events, workspaceId).Ready?
    ensures ReadLifecycle(config, events + [e], workspaceId).Ready? <==> GoodUpdate(e, |events|)
  {
    ReadyExactlyWhenGood(config, events, workspaceId);
    ReadyExactlyWhenGood(config, events + [e], workspaceId);
    var all := events + [e];
    if GoodStream(config, all, workspaceId) { assert GoodUpdate(all[|events|], |events|); }
    if GoodUpdate(e, |events|) {
      forall i | 0 < i < |all| ensures GoodUpdate(all[i], i) {
        if i < |events| { assert all[i] == events[i]; }
      }
    }
  }

  /** One workspace at most can find its stream ready. */
  lemma ReadyForOneWorkspace(config: Config, events: Events, a: string, b: string)
    requires ReadLifecycle(config, events, a).Ready? && ReadLifecycle(config, events, b).Ready?
    ensures a == b
  {
    ReadyExactlyWhenGood(config, events, a);
    ReadyExactlyWhenGood(config, events, b);
  }

  // ---------- One ensure call ----------

  datatype Input = Input(actor: Actor, workspaceId: string)

  function Initialization(config: Config, i: Input): Body {
    Initialized(AGENT, i.workspaceId, LABEL, POLICY, i.actor.id, Some(config.runTypes), MEMORY_VERSION, i.actor)
  }

  function AfterFirstRead(config: Config, i: Input, events: Events): Option<Lifecycle> {
    var lifecycle := ReadLifecycle(config, events, i.workspaceId);
    if !lifecycle.NotMounted? then Some(lifecycle)
    else if !Permitted(config, i.actor) then Some(Blocked(ActorNotPermitted, false, []))
    else None
  }

  function AfterReadback(config: Config, i: Input, events: Events): Lifecycle {
    var lifecycle := ReadLifecycle(config, events, i.workspaceId);
    if lifecycle.NotMounted? then Blocked(NotVerified, false, []) else lifecycle
  }

  lemma InitializationReadsReady(config: Config, es: Events, i: Input, id: string)
    requires Stream(es, IDENTITY_STREAM) == [] && Permitted(config, i.actor)
    ensures AfterReadback(config, i, Stream(es + [Entry(id, IDENTITY_STREAM, 1, Initialization(config, i))], IDENTITY_STREAM)) == Ready(id)
  {
    var e := Entry(id, IDENTITY_STREAM, 1, Initialization(config, i));
    StreamOfOne(es, e, IDENTITY_STREAM);
    assert Stream(es + [e], IDENTITY_STREAM) == [e];
    FirstEventIsGood(config, i, id);
    ReadyExactlyWhenGood(config, [e], i.workspaceId);
  }

  /** The operation itself, undisturbed, on the mutable ledger. */
  method EnsureIdentity(config: Config, ledger: EventLedger<Body>, i: Input, id: string) returns (lifecycle: Lifecycle)
    requires WellFormedLedger(ledger.entries) && id !in Ids(ledger.entries)
    modifies ledger
    ensures WellFormedLedger(ledger.entries)
    ensures !lifecycle.NotMounted?
    ensures var before := Stream(old(ledger.entries), IDENTITY_STREAM);
            if before == [] && Permitted(config, i.actor)
            then lifecycle == Ready(id) && ledger.entries == old(ledger.entries) + [Entry(id, IDENTITY_STREAM, 1, Initialization(config, i))]
            else ledger.entries == old(ledger.entries)
                 && (lifecycle.Ready? <==> GoodStream(config, before, i.workspaceId))
  {
    var before := Stream(ledger.entries, IDENTITY_STREAM);
    ReadyExactlyWhenGood(config, before, i.workspaceId);
    var first := AfterFirstRead(config, i, before);
    if first.Some? { return first.value; }
    var appended := ledger.Append(id, IDENTITY_STREAM, Initialization(config, i), Expected(Some(1), None));
    InitializationReadsReady(config, old(ledger.entries), i, id);
    var after := Stream(ledger.entries, IDENTITY_STREAM);
    return AfterReadback(config, i, after);
  }

  // ---------- The race ----------

  /** clean says that no ledger operation of the call failed other than by conflict. */
  datatype Phase =
    | Reading(input: Input)
    | Appending(input: Input)
    | Rereading(input: Input)
    | Done(input: Input, lifecycle: Lifecycle, clean: bool)

  datatype World = World(ledger: Events, calls: seq<Phase>)

  datatype StepLabel =
    | Begin(input: Input)
    | Read(call: nat)
    | ReadFails(call: nat)
    | Append(call: nat, id: string)
    | AppendFails(call: nat, id: string, committed: bool)
    | Reread(call: nat)
    | OtherWriter(id: string, streamId: string, body: Body)

  /** Other writers leave the identity stream alone until it is initialized, and then only update the default agent. */
  predicate Enabled(w: World, s: StepLabel) {
    match s
    case Begin(_) => true
    case Read(c) => c < |w.calls| && w.calls[c].Reading?
    case ReadFails(c) => c < |w.calls| && (w.calls[c].Reading? || w.calls[c].Rereading?)
    case Append(c, id) => c < |w.calls| && w.calls[c].Appending? && id !in Ids(w.ledger)
    case AppendFails(c, id, _) => c < |w.calls| && w.calls[c].Appending? && id !in Ids(w.ledger)
    case Reread(c) => c < |w.calls| && w.calls[c].Rereading?
    case OtherWriter(id, streamId, body) =>
      id !in Ids(w.ledger) && (streamId == IDENTITY_STREAM ==> body == Updated(AGENT) && Stream(w.ledger, IDENTITY_STREAM) != [])
  }

  function AppendIfFirst(config: Config, es: Events, i: Input, id: string): Events {
    if CountsMatch(es, IDENTITY_STREAM, Expected(Some(1), None))
    then es + [NextEntry(es, id, IDENTITY_STREAM, Initialization(config, i))] else es
  }

  function NextLedger(config: Config, w: World, s: StepLabel): Events
    requires Enabled(w, s)
  {
    match s
    case Append(c, id) => AppendIfFirst(config, w.ledger, w.calls[c].input, id)
    case AppendFails(c, id, committed) => if committed then AppendIfFirst(config, w.ledger, w.calls[c].input, id) else w.ledger
    case OtherWriter(id, streamId, body) => w.ledger + [NextEntry(w.ledger, id, streamId, body)]
    case _ => w.ledger
  }

  function NextCalls(config: Config, w: World, s: StepLabel): seq<Phase>
    requires Enabled(w, s)
  {
    var stream := Stream(w.ledger, IDENTITY_STREAM);
    match s
    case Begin(i) => w.calls + [Reading(i)]
    case Read(c) =>
      var i := w.calls[c].input;
      w.calls[c := (match AfterFirstRead(config, i, stream)
                    case Some(lifecycle) => Done(i, lifecycle, true)
                    case None => Appending(i))]
    case ReadFails(c) => w.calls[c := Done(w.calls[c].input, Blocked(Unreadable, false, []), false)]
    case Append(c, _) => w.calls[c := Rereading(w.calls[c].input)]
    case AppendFails(c, _, _) => w.calls[c := Done(w.calls[c].input, Blocked(NotInitialized, false, []), false)]
    case Reread(c) => w.calls[c := Done(w.calls[c].input, AfterReadback(config, w.calls[c].input, stream), true)]
    case OtherWriter(_, _, _) => w.calls
  }

  function Apply(config: Config, w: World, s: StepLabel): World
    requires Enabled(w, s)
  {
    World(NextLedger(config, w, s), NextCalls(config, w, s))
  }

  predicate Run(config: Config, ws: seq<World>, ss: seq<StepLabel>) {
    && |ws| == |ss| + 1
    && ws[0] == World([], [])
    && forall i | 0 <= i < |ss| :: Enabled(ws[i], ss[i]) && ws[i + 1] == Apply(config, ws[i], ss[i])
  }

  /** The workspace of the first event, once there is one. */
  function Winner(es: Events): Option<string> {
    var stream := Stream(es, IDENTITY_STREAM);
    if stream != [] && stream[0].body.Initialized? then Some(stream[0].body.workspaceId) else None
  }

  /** Untouched, or initialized once for the winner and only updated since. */
  predicate StreamGood(config: Config, es: Events) {
    var stream := Stream(es, IDENTITY_STREAM);
    stream == [] || (Winner(es).Some? && GoodStream(config, stream, Winner(es).value))
  }

  predicate PhaseOk(config: Config, es: Events, ph: Phase) {
    match ph
    case Reading(_) => true
    case Appending(i) => Permitted(config, i.actor)
    case Rereading(i) => Permitted(config, i.actor) && Winner(es).Some?
    case Done(i, lifecycle, clean) =>
      && !lifecycle.NotMounted?
      && (lifecycle.Ready? ==> Winner(es) == Some(i.workspaceId))
      && (clean && Permitted(config, i.actor) ==> Winner(es).Some? && (lifecycle.Ready? <==> Winner(es) == Some(i.workspaceId)))
  }

  predicate BootstrapInvariant(config: Config, w: World) {
    WellFormedLedger(w.ledger) && StreamGood(config, w.ledger) && forall ph | ph in w.calls :: PhaseOk(config, w.ledger, ph)
  }

  /** One more event in the ledger: the winner, once there is one, stays the winner. */
  lemma WinnerStays(config: Config, es: Events, e: Event)
    requires StreamGood(config, es)
    ensures Winner(es).Some? ==> Winner(es + [e]) == Winner(es)
  {
    StreamOfOne(es, e, IDENTITY_STREAM);
  }

  lemma FirstEventIsGood(config: Config, i: Input, id: string)
    requires Permitted(config, i.actor)
    ensures GoodStream(config, [Entry(id, IDENTITY_STREAM, 1, Initialization(config, i))], i.workspaceId)
  {
  }

  lemma FirstAppendKeeps(config: Config, es: Events, i: Input, id: string)
    requires WellFormedLedger(es) && Stream(es, IDENTITY_STREAM) == [] && Permitted(config, i.actor) && id !in Ids(es)
    ensures var after := es + [NextEntry(es, id, IDENTITY_STREAM, Initialization(config, i))];
            WellFormedLedger(after) && StreamGood(config, after) && Winner(after) == Some(i.workspaceId)
  {
    var e := NextEntry(es, id, IDENTITY_STREAM, Initialization(config, i));
    AppendKeepsLedger(es, e);
    StreamOfOne(es, e, IDENTITY_STREAM);
    FirstEventIsGood(config, i, id);
    assert Stream(es + [e], IDENTITY_STREAM) == [e];
  }

  lemma InitializationKeeps(config: Config, es: Events, i: Input, id: string)
    requires WellFormedLedger(es) && StreamGood(config, es) && Permitted(config, i.actor) && id !in Ids(es)
    ensures var after := AppendIfFirst(config, es, i, id);
            WellFormedLedger(after) && StreamGood(config, after) && Winner(after).Some?
            && (Winner(es).Some? ==> Winner(after) == Winner(es))
  {
    if Stream(es, IDENTITY_STREAM) == [] { FirstAppendKeeps(config, es, i, id); }
  }

  lemma OtherWriterKeeps(config: Config, es: Events, e: Event)
    requires WellFormedLedger(es) && StreamGood(config, es)
    requires e.id !in Ids(es) && e.sequence == |Stream(es, e.streamId)| + 1
    requires e.streamId == IDENTITY_STREAM ==> e.body == Updated(AGENT) && Stream(es, IDENTITY_STREAM) != []
    ensures WellFormedLedger(es + [e]) && StreamGood(config, es + [e])
  {
    AppendKeepsLedger(es, e);
    StreamOfOne(es, e, IDENTITY_STREAM);
    WinnerStays(config, es, e);
    var stream := Stream(es, IDENTITY_STREAM);
    if e.streamId == IDENTITY_STREAM {
      assert GoodUpdate(e, |stream|);
      forall i | 0 < i < |stream| + 1 ensures GoodUpdate((stream + [e])[i], i) {}
    }
  }

  lemma PhasesSurvive(config: Config, w: World, after: Events)
    requires forall ph | ph in w.calls :: PhaseOk(config, w.ledger, ph)
    requires Winner(w.ledger).Some? ==> Winner(after) == Winner(w.ledger)
    ensures forall ph | ph in w.calls :: PhaseOk(config, after, ph)
  {
    forall ph | ph in w.calls ensures PhaseOk(config, after, ph) { assert PhaseOk(config, w.ledger, ph); }
  }

  lemma ReadIsOk(config: Config, es: Events, i: Input)
    requires StreamGood(config, es)
    ensures var stream := Stream(es, IDENTITY_STREAM);
            && (AfterFirstRead(config, i, stream).Some? ==> PhaseOk(config, es, Done(i, AfterFirstRead(config, i, stream).value, true)))
            && (AfterFirstRead(config, i, stream).None? ==> Permitted(config, i.actor))
            && (Winner(es).Some? ==> PhaseOk(config, es, Done(i, AfterReadback(config, i, stream), true)))
  {
    var stream := Stream(es, IDENTITY_STREAM);
    ReadyExactlyWhenGood(config, stream, i.workspaceId);
  }

  lemma ReplacedPhase(config: Config, es: Events, calls: seq<Phase>, c: nat, ph: Phase)
    requires c < |calls| && PhaseOk(config, es, ph) && forall p | p in calls :: PhaseOk(config, es, p)
    ensures forall p | p in calls[c := ph] :: PhaseOk(config, es, p)
  {
    forall p | p in calls[c := ph] ensures PhaseOk(config, es, p) {
      var k :| 0 <= k < |calls| && calls[c := ph][k] == p;
      assert k != c ==> calls[k] in calls;
    }
  }

  lemma StepKeepsBootstrap(config: Config, w: World, s: StepLabel)
    requires BootstrapInvariant(config, w) && Enabled(w, s)
    ensures BootstrapInvariant(config, Apply(config, w, s))
  {
    match s
    case Begin(_) =>
    case Read(c) =>
      ReadIsOk(config, w.ledger, w.calls[c].input);
      ReplacedPhase(config, w.ledger, w.calls, c, NextCalls(config, w, s)[c]);
    case ReadFails(c) => ReplacedPhase(config, w.ledger, w.calls, c, Done(w.calls[c].input, Blocked(Unreadable, false, []), false));
    case Append(c, id) =>
      assert PhaseOk(config, w.ledger, w.calls[c]);
      InitializationKeeps(config, w.ledger, w.calls[c].input, id);
      PhasesSurvive(config, w, NextLedger(config, w, s));
      ReplacedPhase(config, NextLedger(config, w, s), w.calls, c, Rereading(w.calls[c].input));
    case AppendFails(c, id, _) =>
      assert PhaseOk(config, w.ledger, w.calls[c]);
      InitializationKeeps(config, w.ledger, w.calls[c].input, id);
      PhasesSurvive(config, w, NextLedger(config, w, s));
      ReplacedPhase(config, NextLedger(config, w, s), w.calls, c, Done(w.calls[c].input, Blocked(NotInitialized, false, []), false));
    case Reread(c) =>
      assert PhaseOk(config, w.ledger, w.calls[c]);
      ReadIsOk(config, w.ledger, w.calls[c].input);
      ReplacedPhase(config, w.ledger, w.calls, c, NextCalls(config, w, s)[c]);
    case OtherWriter(id, streamId, body) =>
      var e := NextEntry(w.ledger, id, streamId, body);
      OtherWriterKeeps(config, w.ledger, e);
      WinnerStays(config, w.ledger, e);
      PhasesSurvive(config, w, w.ledger + [e]);
  }

  lemma {:induction false} RunKeepsBootstrap(config: Config, ws: seq<World>, ss: seq<StepLabel>, n: nat)
    requires Run(config, ws, ss) && n < |ws|
    ensures BootstrapInvariant(config, ws[n])
    decreases n
  {
    if n > 0 {
      RunKeepsBootstrap(config, ws, ss, n - 1);
      StepKeepsBootstrap(config, ws[n - 1], ss[n - 1]);
    }
  }

  /**
   The race, for any number of calls and workspaces, with ledger errors that may
   come before or after a commit: the stream never holds two initializations;
   every finished call is ready or blocked; a call is ready only for the winning
   workspace; and a permitted call without ledger errors is ready exactly when
   its workspace won.
   */
  lemma BootstrapRace(config: Config, ws: seq<World>, ss: seq<StepLabel>, n: nat)
    requires Run(config, ws, ss) && n < |ws|
    ensures |Initializations(Stream(ws[n].ledger, IDENTITY_STREAM))| <= 1
    ensures forall ph | ph in ws[n].calls && ph.Done? ::
              && (ph.lifecycle.Ready? || ph.lifecycle.Blocked?)
              && (ph.lifecycle.Ready? ==> Winner(ws[n].ledger) == Some(ph.input.workspaceId))
              && (ph.clean && Permitted(config, ph.input.actor) ==>
                    (ph.lifecycle.Ready? <==> Winner(ws[n].ledger) == Some(ph.input.workspaceId)))
  {
    RunKeepsBootstrap(config, ws, ss, n);
    var stream := Stream(ws[n].ledger, IDENTITY_STREAM);
    if stream != [] {
      OneInitialization(stream);
      assert forall i | 0 < i < |stream| :: GoodUpdate(stream[i], i);
    }
    forall ph | ph in ws[n].calls && ph.Done?
      ensures PhaseOk(config, ws[n].ledger, ph)
    {
    }
  }

  /** Ready is for good: whoever reads for the winning workspace later finds it ready too. */
  lemma ReadyLasts(config: Config, ws: seq<World>, ss: seq<StepLabel>, n: nat, workspaceId: string)
    requires Run(config, ws, ss) && n < |ws|
    ensures ReadLifecycle(config, Stream(ws[n].ledger, IDENTITY_STREAM), workspaceId).Ready? <==> Winner(ws[n].ledger) == Some(workspaceId)
  {
    RunKeepsBootstrap(config, ws, ss, n);
    ReadyExactlyWhenGood(config, Stream(ws[n].ledger, IDENTITY_STREAM), workspaceId);
  }

  // ---------- In terms of the events themselves ----------

  /** A human or the system, whose names pass the screening. */
  predicate LocalActor(config: Config, a: Actor) {
    a.kind in {"system", "human"} && config.screened(a.id) && config.screened(a.displayName)
  }

  /** The event that the default agent of a workspace begins with. */
  predicate BeginsWorkspace(config: Config, e: Event, workspaceId: string) {
    && e.streamId == "agent_identity_agent_default" && e.sequence == 1
    && e.body.Initialized?
    && e.body.residentAgentId == "agent_default" && e.body.workspaceId == workspaceId
    && e.body.agentLabel == "Cestus Agent" && e.body.policyId == "agent_policy_default" && e.body.memoryProjectionVersion == "0.1.0"
    && e.body.allowedRunTypes.Some? && e.body.allowedRunTypes.value == config.runTypes
    && LocalActor(config, e.body.actor) && e.body.initializedBy == e.body.actor.id
  }

  /** The event at this position, behind the first, updates the default agent. */
  predicate UpdatesDefaultAgent(e: Event, position: nat) {
    && e.streamId == "agent_identity_agent_default" && e.sequence == position + 1
    && e.body.Updated? && e.body.residentAgentId == "agent_default"
  }

  /** Ready, in terms of the events: the first begins the workspace, the others update the default agent, one by one. */
  lemma ReadyByEvents(config: Config, events: Events, workspaceId: string)
    ensures ReadLifecycle(config, events, workspaceId).Ready? <==>
            && |events| > 0 && BeginsWorkspace(config, events[0], workspaceId)
            && forall i | 0 < i < |events| :: UpdatesDefaultAgent(events[i], i)
  {
    ReadyExactlyWhenGood(config, events, workspaceId);
    if events != [] { BeginsExactly(config, events[0], workspaceId); }
    forall i | 0 < i < |events| ensures UpdatesDefaultAgent(events[i], i) <==> GoodUpdate(events[i], i) {}
  }

  lemma BeginsExactly(config: Config, e: Event, workspaceId: string)
    ensures BeginsWorkspace(config, e, workspaceId) <==> GoodInitialization(config, e, workspaceId)
  {
  }

  /** A stream that was begun for the default agent, by whatever contract, and holds nothing but contiguous updates behind that. */
  predicate BegunForAgent(events: Events) {
    && |events| > 0 && events[0].body.Initialized? && events[0].body.residentAgentId == "agent_default"
    && (forall i | 0 <= i < |events| :: events[i].streamId == "agent_identity_agent_default" && events[i].sequence == i + 1)
    && forall i | 0 < i < |events| :: events[i].body.Updated?
  }

  /** A refusal says that the identity is initialized exactly when it was begun for another workspace. */
  lemma InitializedElsewhereExactly(config: Config, events: Events, workspaceId: string)
    ensures var l := ReadLifecycle(config, events, workspaceId);
            l.Blocked? && l.initialized <==> BegunForAgent(events) && events[0].body.workspaceId != workspaceId
  {
    if events != [] && events[0].body.Initialized? {
      OneInitialization(events);
      if BegunForAgent(events) { BegunIsRead(config, events, workspaceId); } else { NotBegunIsRefused(config, events, workspaceId); }
    }
  }

  lemma BegunIsRead(config: Config, events: Events, workspaceId: string)
    requires BegunForAgent(events)
    ensures var l := ReadLifecycle(config, events, workspaceId);
            l.Blocked? && l.initialized <==> events[0].body.workspaceId != workspaceId
  {
    OneInitialization(events);
    forall e | e in events ensures e.streamId == IDENTITY_STREAM && !e.body.OtherType? && (e.body.Updated? ==> e.sequence > 1) {
      var i :| 0 <= i < |events| && events[i] == e;
    }
  }

  lemma NotBegunIsRefused(config: Config, events: Events, workspaceId: string)
    requires events != [] && events[0].body.Initialized? && !BegunForAgent(events)
    ensures var l := ReadLifecycle(config, events, workspaceId); !(l.Blocked? && l.initialized)
  {
    OneInitialization(events);
    var l := ReadLifecycle(config, events, workspaceId);
    if l.Blocked? && l.initialized {
      forall i | 0 <= i < |events| ensures events[i].streamId == IDENTITY_STREAM && (i > 0 ==> events[i].body.Updated?) {
        assert events[i] in events;
      }
      assert BegunForAgent(events);
    }
  }

  /** In every race the identity stream is empty or begins with the canonical event of one workspace, written for a local actor. */
  lemma RaceBeginsOneWorkspace(config: Config, ws: seq<World>, ss: seq<StepLabel>, n: nat)
    requires Run(config, ws, ss) && n < |ws|
    ensures var stream := Stream(ws[n].ledger, IDENTITY_STREAM);
            stream == [] ||
            (&& stream[0].body.Initialized? && BeginsWorkspace(config, stream[0], stream[0].body.workspaceId)
             && forall i | 0 < i < |stream| :: UpdatesDefaultAgent(stream[i], i))
  {
    RunKeepsBootstrap(config, ws, ss, n);
    var stream := Stream(ws[n].ledger, IDENTITY_STREAM);
    if stream != [] {
      BeginsExactly(config, stream[0], stream[0].body.workspaceId);
      forall i | 0 < i < |stream| ensures UpdatesDefaultAgent(stream[i], i) { assert GoodUpdate(stream[i], i); }
    }
  }

  /** The race, in terms of the events: who is ready, for calls by local actors without ledger errors exactly. */
  lemma RaceByEvents(config: Config, ws: seq<World>, ss: seq<StepLabel>, n: nat, c: nat)
    requires Run(config, ws, ss) && n < |ws| && c < |ws[n].calls| && ws[n].calls[c].Done?
    ensures var stream, call := Stream(ws[n].ledger, IDENTITY_STREAM), ws[n].calls[c];
            && (call.lifecycle.Ready? ==>
                  |stream| > 0 && BeginsWorkspace(config, stream[0], call.input.workspaceId))
            && (call.clean && LocalActor(config, call.input.actor) ==>
                  |stream| > 0 && (call.lifecycle.Ready? <==> BeginsWorkspace(config, stream[0], call.input.workspaceId)))
            && !call.lifecycle.NotMounted?
  {
    RunKeepsBootstrap(config, ws, ss, n);
    RaceBeginsOneWorkspace(config, ws, ss, n);
    assert PhaseOk(config, ws[n].ledger, ws[n].calls[c]);
  }
}
