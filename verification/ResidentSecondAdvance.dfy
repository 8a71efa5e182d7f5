/**
 The second advance over whole runs: a call that begins with the candidate of a
 completed segment, and reads that segment back, asks for the replay and the
 handoff and for nothing else, executes nothing, writes nothing, and can complete
 only with the recorded result.
 */
module ResidentSecondAdvance {
  import opened CanonicalJson
  import opened ResidentRecords
  import opened ResidentReplay
  import opened ResidentLoop
  import Completion = ResidentLoopCompletion

  /** A completed segment as it is recorded, with the handoff projection it was completed on. */
  datatype Segment = Segment(events: seq<Event>, binding: Binding, material: Material, projection: HandoffProjection)

  /** The segment is one that a completed advance wrote for this candidate, and its step was proposed unbound. */
  predicate SegmentOf(ctx: Context, c: Candidate, g: Segment) {
    && |g.events| == 5
    && AdvanceAdmissible(ctx, c)
    && WrittenByAdvance(g.events, c.plan, g.binding, g.material, g.projection.selectedReadback)
    && HandoffVerified(g.projection, ctx.identity, c.plan.provenance.authority)
    && Ordered(g.events) && ctx.accepts(g.events)
    && Unbound(c.plan.steps[0])
  }

  /** The handoff projection still selects the recorded readback. */
  predicate HandoffUnchanged(ctx: Context, c: Candidate, g: Segment, p: HandoffProjection) {
    HandoffVerified(p, ctx.identity, c.plan.provenance.authority) && p.selectedReadback == g.projection.selectedReadback
  }

  /** What a replaying call starts from and may be told: the segment, its last event, and the handoffs that count as unchanged. */
  datatype Script = Script(
    start: Locals, identity: Identity, events: seq<Event>, result: Event, same: HandoffProjection -> bool)

  function ScriptOf(ctx: Context, c: Candidate, g: Segment): Script
    requires |g.events| == 5
  {
    Script(StartLocals(c, c.plan), ctx.identity, g.events, g.events[4], p => HandoffUnchanged(ctx, c, g, p))
  }

  predicate FaithfulReply(t: Script, r: Reply) {
    && (r.ReplayReply? ==> r.events == t.events)
    && (r.HandoffReply? ==> t.same(r.projection))
  }

  /** Anything but a crash may happen, as long as a replay that is answered is the segment and a handoff that is answered is unchanged. */
  predicate Faithful(t: Script, s: StepLabel) {
    !s.Crash? && (s.Answer? ==> FaithfulReply(t, s.reply))
  }

  /** Where the call stands: at the replay read, or at the handoff read that the accepted replay led to. */
  predicate AtStage(t: Script, port: Port, l: Locals) {
    (port == ReadReplay && l == t.start) || (port == ReadHandoff(true) && l == t.start.(replay := t.events))
  }

  /** An answer the call has been given: faithful, and a replay names the loop's identity. */
  predicate Told(t: Script, port: Port, r: Reply) {
    FaithfulReply(t, r) && (port == ReadReplay && r.ReplayReply? ==> r.identity == t.identity)
  }

  predicate Replaying(t: Script, call: Call) {
    match call
    case Active(Advancing, AtPort(port, answer), l) => AtStage(t, port, l) && (answer.Some? ==> Told(t, port, answer.value))
    case Active(Advancing, AtReverify(port, reply), l) => AtStage(t, port, l) && Told(t, port, reply)
    case _ => false
  }

  /** The move of a replaying call: to the handoff read, to the recorded result, or to a failure. */
  function ReplayingMove(t: Script, port: Port, reply: Reply): Move {
    if port == ReadReplay && reply.ReplayReply? then Ask(ReadHandoff(true), t.start.(replay := t.events))
    else if port == ReadHandoff(true) && reply.HandoffReply? then Return(t.result)
    else Throw
  }

  /** The continuation of the call, if it is at one, is the scripted one. */
  predicate MovesOn(ctx: Context, t: Script, call: Call) {
    call.Active? && call.await.AtReverify? ==>
      After(ctx, call.mode, call.await.port, call.await.reply, call.locals) == ReplayingMove(t, call.await.port, call.await.reply)
  }

  /** An act that a replaying call may be seen to make. */
  predicate ReplayingAct(t: Script, a: Act) {
    && (a.Called? ==> a.port == ReadReplay || a.port == ReadHandoff(true))
    && (a.Ended? && a.outcome.CompletedWith? ==> a.outcome.event == t.result)
    && !a.PresentedToSuspend? && !a.ResumeBegun? && !a.Restarted?
  }

  /** The log has grown by acts of a replaying call only. */
  predicate OnlyReplays(t: Script, before: seq<Act>, log: seq<Act>) {
    before <= log && forall k | |before| <= k < |log| :: ReplayingAct(t, log[k])
  }

  /** From one moment to a later one: the call goes on replaying or is over, and nothing was executed. */
  predicate Harmless(t: Script, before: World, w: World) {
    && (Replaying(t, w.loop.call) || w.loop.call.Idle?)
    && w.attempts == before.attempts
    && OnlyReplays(t, before.log, w.log)
  }

  /** One step, moreover, leaves the stream as it is unless it is another writer's. */
  predicate StepHarmless(t: Script, w: World, s: StepLabel, next: World) {
    Harmless(t, w, next) && (!s.OtherWriter? ==> next.ledger == w.ledger)
  }

  // ---------- The two continuations ----------

  lemma OtherRepliesThrow(ctx: Context, port: Port, reply: Reply, l: Locals)
    requires port == ReadReplay || port == ReadHandoff(true)
    requires port == ReadReplay ==> !reply.ReplayReply?
    requires port == ReadHandoff(true) ==> !reply.HandoffReply?
    ensures After(ctx, Advancing, port, reply, l) == Throw
  {
  }

  lemma HandoffReturns(ctx: Context, c: Candidate, g: Segment, p: HandoffProjection)
    requires SegmentOf(ctx, c, g) && HandoffUnchanged(ctx, c, g, p)
    ensures After(ctx, Advancing, ReadHandoff(true), HandoffReply(p), StartLocals(c, c.plan).(replay := g.events)) == Return(g.events[4])
  {
    Completion.SecondAdvanceReturnsTheResult(ctx, c, g.events, g.binding, g.material, g.projection.selectedReadback, p);
  }

  lemma ReplayAsksHandoff(ctx: Context, c: Candidate, g: Segment)
    requires SegmentOf(ctx, c, g)
    ensures After(ctx, Advancing, ReadReplay, ReplayReply(ctx.identity, g.events), StartLocals(c, c.plan)) ==
            Ask(ReadHandoff(true), StartLocals(c, c.plan).(replay := g.events))
  {
    Completion.SecondAdvanceReturnsTheResult(ctx, c, g.events, g.binding, g.material, g.projection.selectedReadback, g.projection);
  }

  lemma SegmentContinues(ctx: Context, c: Candidate, g: Segment, t: Script, port: Port, reply: Reply, l: Locals)
    requires SegmentOf(ctx, c, g) && t == ScriptOf(ctx, c, g)
    requires AtStage(t, port, l) && Told(t, port, reply)
    ensures After(ctx, Advancing, port, reply, l) == ReplayingMove(t, port, reply)
  {
    if port == ReadReplay && reply.ReplayReply? {
      ReplayAsksHandoff(ctx, c, g);
    } else if port == ReadHandoff(true) && reply.HandoffReply? {
      HandoffReturns(ctx, c, g, reply.projection);
    } else {
      OtherRepliesThrow(ctx, port, reply, l);
    }
  }

  lemma SegmentMovesOn(ctx: Context, c: Candidate, g: Segment, call: Call)
    requires SegmentOf(ctx, c, g) && Replaying(ScriptOf(ctx, c, g), call)
    ensures MovesOn(ctx, ScriptOf(ctx, c, g), call)
  {
    if call.await.AtReverify? { SegmentContinues(ctx, c, g, ScriptOf(ctx, c, g), call.await.port, call.await.reply, call.locals); }
  }

  // ---------- One step ----------

  lemma LogGrows(t: Script, log: seq<Act>, acts: seq<Act>, last: Act)
    requires (forall a | a in acts :: ReplayingAct(t, a)) && ReplayingAct(t, last)
    ensures OnlyReplays(t, log, log + acts + [last])
  {
    var all := log + acts + [last];
    forall k | |log| <= k < |all| ensures ReplayingAct(t, all[k]) {
      if k < |log| + |acts| { assert all[k] == acts[k - |log|]; }
    }
  }

  /** Where the scripted move leads. */
  function Proceed(t: Script, w: World, next: Token): World
    requires w.loop.call.Active? && w.loop.call.await.AtReverify?
  {
    var w' := w.(issued := w.issued + {next});
    match ReplayingMove(t, w.loop.call.await.port, w.loop.call.await.reply)
    case Ask(port, l) => AskPort(w', Some(next), [Granted(next)], Advancing, port, l)
    case Return(e) => End(w', Some(next), [Granted(next)], CompletedWith(e))
    case _ => End(w', Some(next), [Granted(next)], FailedCall)
  }

  lemma ContinueProceeds(ctx: Context, t: Script, w: World, next: Token)
    requires w.loop.call.Active? && w.loop.call.mode == Advancing && w.loop.call.await.AtReverify? && MovesOn(ctx, t, w.loop.call)
    ensures Continue(ctx, w, next) == Proceed(t, w, next)
  {
  }

  lemma ContinueIsHarmless(t: Script, w: World, next: Token)
    requires Replaying(t, w.loop.call) && w.loop.call.await.AtReverify?
    ensures StepHarmless(t, w, Reverified(Some(next)), Proceed(t, w, next))
  {
    match ReplayingMove(t, w.loop.call.await.port, w.loop.call.await.reply)
    case Ask(port, _) => LogGrows(t, w.log, [Granted(next)], Called(port));
    case Return(e) => LogGrows(t, w.log, [Granted(next)], Ended(CompletedWith(e)));
    case Throw => LogGrows(t, w.log, [Granted(next)], Ended(FailedCall));
  }

  lemma DeliverIsHarmless(ctx: Context, t: Script, w: World)
    requires Replaying(t, w.loop.call) && w.loop.call.await.AtPort? && w.loop.call.await.answer.Some?
    ensures StepHarmless(t, w, Deliver, DeliverReply(w))
  {
    var acts := if w.loop.call.await.answer.value.Rejected? then [RejectedBy(w.loop.call.await.port)] else [];
    LogGrows(t, w.log, acts, Ended(FailedCall));
    if w.loop.token.Some? { LogGrows(t, w.log, acts, Presented(w.loop.token.value)); }
  }

  /** Answers to either port append nothing, so only other writers change the stream. */
  lemma AnswerIsHarmless(ctx: Context, t: Script, w: World, reply: Reply, appended: seq<Event>)
    requires t.identity == ctx.identity
    requires Replaying(t, w.loop.call) && Enabled(ctx, w, Answer(reply, appended)) && FaithfulReply(t, reply)
    ensures StepHarmless(t, w, Answer(reply, appended), Apply(ctx, w, Answer(reply, appended)))
  {
    assert appended == [] && w.ledger + appended == w.ledger;
  }

  lemma StepIsHarmless(ctx: Context, t: Script, w: World, s: StepLabel)
    requires t.identity == ctx.identity
    requires Replaying(t, w.loop.call) && MovesOn(ctx, t, w.loop.call) && Enabled(ctx, w, s) && Faithful(t, s)
    ensures StepHarmless(t, w, s, Apply(ctx, w, s))
  {
    match s
    case Deliver => DeliverIsHarmless(ctx, t, w);
    case Reverified(Some(next)) =>
      ContinueProceeds(ctx, t, w, next);
      ContinueIsHarmless(t, w, next);
    case Reverified(None) => LogGrows(t, w.log, [Refused], Ended(FailedCall));
    case Answer(reply, appended) => AnswerIsHarmless(ctx, t, w, reply, appended);
    case _ =>
  }

  lemma HarmlessThenStep(t: Script, first: World, w: World, s: StepLabel, next: World)
    requires Harmless(t, first, w) && StepHarmless(t, w, s, next)
    ensures Harmless(t, first, next)
  {
    forall k | |first.log| <= k < |next.log| ensures ReplayingAct(t, next.log[k]) {
      if k < |w.log| { assert next.log[k] == w.log[k]; }
    }
  }

  // ---------- Whole runs ----------

  /** Step i begins the call in an idle loop that holds a token; up to step n the environment is faithful and the call is not over. */
  predicate SecondCall(ctx: Context, ws: seq<World>, ss: seq<StepLabel>, c: Candidate, g: Segment, i: nat, n: nat)
    requires |ws| == |ss| + 1 && |g.events| == 5
  {
    && i < n < |ws|
    && ss[i] == BeginAdvance(c) && ws[i].loop.call.Idle? && ws[i].loop.token.Some?
    && forall j | i < j < n :: Faithful(ScriptOf(ctx, c, g), ss[j]) && ws[j].loop.call.Active?
  }

  lemma BeginsReplaying(ctx: Context, c: Candidate, t: Script, w: World)
    requires AdvanceAdmissible(ctx, c) && w.loop.call.Idle? && w.loop.token.Some? && t.start == StartLocals(c, c.plan)
    ensures StepHarmless(t, w, BeginAdvance(c), Apply(ctx, w, BeginAdvance(c)))
    ensures Replaying(t, Apply(ctx, w, BeginAdvance(c)).loop.call)
  {
    LogGrows(t, w.log, [], Called(ReadReplay));
  }

  lemma RunStep(ctx: Context, ws: seq<World>, ss: seq<StepLabel>, k: nat)
    requires Run(ctx, ws, ss) && k < |ss|
    ensures Enabled(ctx, ws[k], ss[k]) && ws[k + 1] == Apply(ctx, ws[k], ss[k])
  {
  }

  /** Step k of the second call, from its beginning on. */
  lemma SecondStepIsHarmless(
      ctx: Context, ws: seq<World>, ss: seq<StepLabel>, c: Candidate, g: Segment, i: nat, k: nat)
    requires Run(ctx, ws, ss) && SegmentOf(ctx, c, g) && SecondCall(ctx, ws, ss, c, g, i, k + 1)
    requires i < k ==> Replaying(ScriptOf(ctx, c, g), ws[k].loop.call)
    ensures StepHarmless(ScriptOf(ctx, c, g), ws[k], ss[k], ws[k + 1])
  {
    RunStep(ctx, ws, ss, k);
    if i < k {
      SegmentMovesOn(ctx, c, g, ws[k].loop.call);
      StepIsHarmless(ctx, ScriptOf(ctx, c, g), ws[k], ss[k]);
    } else {
      BeginsReplaying(ctx, c, ScriptOf(ctx, c, g), ws[k]);
    }
  }

  /** Every step from i to n is harmless where the call is replaying, and the call is not over before n. */
  predicate HarmlessSteps(t: Script, ws: seq<World>, ss: seq<StepLabel>, i: nat, n: nat)
    requires |ws| == |ss| + 1
  {
    && i < n < |ws|
    && StepHarmless(t, ws[i], ss[i], ws[i + 1])
    && forall k | i < k < n :: ws[k].loop.call.Active? && (Replaying(t, ws[k].loop.call) ==> StepHarmless(t, ws[k], ss[k], ws[k + 1]))
  }

  lemma SecondCallSteps(ctx: Context, ws: seq<World>, ss: seq<StepLabel>, c: Candidate, g: Segment, i: nat, n: nat)
    requires Run(ctx, ws, ss) && SegmentOf(ctx, c, g) && SecondCall(ctx, ws, ss, c, g, i, n)
    ensures HarmlessSteps(ScriptOf(ctx, c, g), ws, ss, i, n)
  {
    var t := ScriptOf(ctx, c, g);
    SecondStepIsHarmless(ctx, ws, ss, c, g, i, i);
    forall k | i < k < n && Replaying(t, ws[k].loop.call) ensures StepHarmless(t, ws[k], ss[k], ws[k + 1]) {
      SecondStepIsHarmless(ctx, ws, ss, c, g, i, k);
    }
  }

  lemma {:induction false} HarmlessStepsAddUp(t: Script, ws: seq<World>, ss: seq<StepLabel>, i: nat, n: nat)
    requires |ws| == |ss| + 1 && HarmlessSteps(t, ws, ss, i, n)
    ensures Harmless(t, ws[i], ws[n]) && StepHarmless(t, ws[n - 1], ss[n - 1], ws[n])
    decreases n
  {
    if i < n - 1 {
      HarmlessStepsAddUp(t, ws, ss, i, n - 1);
      HarmlessThenStep(t, ws[i], ws[n - 1], ss[n - 1], ws[n]);
    }
  }

  /**
   The second advance, over whole runs. Let an advance begin with the candidate
   of a recorded segment, in a loop that is idle and holds a token. From then to
   any moment up to the end of the call, with other writers, overlapping calls,
   rejections, malformed answers and refusals, as long as the process does not
   stop, the replay that is answered is the segment and the handoff is unchanged:
   no port is asked but the replay and the handoff, no execution is attempted,
   every step but those of other writers leaves the stream as it is, and the call
   completes, if it does, with the recorded result.
   */
  lemma SecondAdvanceOnlyReplays(
      ctx: Context, ws: seq<World>, ss: seq<StepLabel>, c: Candidate, g: Segment, i: nat, n: nat)
    requires Run(ctx, ws, ss) && SegmentOf(ctx, c, g) && SecondCall(ctx, ws, ss, c, g, i, n)
    ensures ws[n].attempts == ws[i].attempts
    ensures forall k | i <= k < n && !ss[k].OtherWriter? :: ws[k + 1].ledger == ws[k].ledger
    ensures ws[i].log <= ws[n].log
    ensures forall a | a in ws[n].log[|ws[i].log|..] && a.Called? :: a.port == ReadReplay || a.port == ReadHandoff(true)
    ensures forall a | a in ws[n].log[|ws[i].log|..] && a.Ended? && a.outcome.CompletedWith? :: a.outcome.event == g.events[4]
  {
    SecondCallSteps(ctx, ws, ss, c, g, i, n);
    HarmlessRun(ScriptOf(ctx, c, g), ws, ss, i, n);
  }

  lemma HarmlessRun(t: Script, ws: seq<World>, ss: seq<StepLabel>, i: nat, n: nat)
    requires |ws| == |ss| + 1 && HarmlessSteps(t, ws, ss, i, n)
    ensures ws[n].attempts == ws[i].attempts && ws[i].log <= ws[n].log
    ensures forall k | i <= k < n && !ss[k].OtherWriter? :: ws[k + 1].ledger == ws[k].ledger
    ensures forall a | a in ws[n].log[|ws[i].log|..] :: ReplayingAct(t, a)
  {
    HarmlessStepsAddUp(t, ws, ss, i, n);
    LaterActs(t, ws[i].log, ws[n].log);
    forall k | i <= k < n && !ss[k].OtherWriter? ensures ws[k + 1].ledger == ws[k].ledger {
      HarmlessStepsAddUp(t, ws, ss, i, k + 1);
    }
  }

  lemma LaterActs(t: Script, before: seq<Act>, log: seq<Act>)
    requires OnlyReplays(t, before, log)
    ensures forall a | a in log[|before|..] :: ReplayingAct(t, a)
  {
    forall a | a in log[|before|..] ensures ReplayingAct(t, a) {
      var k :| |before| <= k < |log| && log[k] == a;
    }
  }

  /** What the log shows of an answer that has been reverified. */
  function LastAct(t: Script, port: Port, reply: Reply): Act {
    if port == ReadReplay && reply.ReplayReply? then Called(ReadHandoff(true))
    else if port == ReadHandoff(true) && reply.HandoffReply? then Ended(CompletedWith(t.result))
    else Ended(FailedCall)
  }

  /**
   And it does complete with it: the handoff is asked for as soon as the replay
   has been answered and reverified, and the result is returned as soon as the
   handoff has been; every other answer ends the call in failure.
   */
  lemma SecondAdvanceGetsThere(ctx: Context, ws: seq<World>, ss: seq<StepLabel>, c: Candidate, g: Segment, i: nat, n: nat)
    requires Run(ctx, ws, ss) && n < |ss| && SegmentOf(ctx, c, g) && SecondCall(ctx, ws, ss, c, g, i, n)
    requires ws[n].loop.call.Active? && ws[n].loop.call.await.AtReverify? && ss[n].Reverified? && ss[n].next.Some?
    ensures ws[n + 1].log == ws[n].log + [Granted(ss[n].next.value)] +
              [LastAct(ScriptOf(ctx, c, g), ws[n].loop.call.await.port, ws[n].loop.call.await.reply)]
  {
    SecondCallSteps(ctx, ws, ss, c, g, i, n);
    HarmlessStepsAddUp(ScriptOf(ctx, c, g), ws, ss, i, n);
    RunStep(ctx, ws, ss, n);
    SecondCallProceeds(ctx, c, g, ScriptOf(ctx, c, g), ws[n], ss[n].next.value);
  }

  lemma SecondCallProceeds(ctx: Context, c: Candidate, g: Segment, t: Script, w: World, next: Token)
    requires SegmentOf(ctx, c, g) && t == ScriptOf(ctx, c, g)
    requires Replaying(t, w.loop.call) && w.loop.call.await.AtReverify?
    ensures Continue(ctx, w, next).log == w.log + [Granted(next)] + [LastAct(t, w.loop.call.await.port, w.loop.call.await.reply)]
  {
    SegmentMovesOn(ctx, c, g, w.loop.call);
    MoveIsLogged(ctx, t, w, next);
  }

  lemma MoveIsLogged(ctx: Context, t: Script, w: World, next: Token)
    requires w.loop.call.Active? && w.loop.call.mode == Advancing && w.loop.call.await.AtReverify? && MovesOn(ctx, t, w.loop.call)
    ensures Continue(ctx, w, next).log == w.log + [Granted(next)] + [LastAct(t, w.loop.call.await.port, w.loop.call.await.reply)]
  {
    ContinueProceeds(ctx, t, w, next);
  }
}
