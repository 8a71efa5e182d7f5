/**
 Every call of a resident loop ends: each continuation asks a port that is
 strictly nearer to the end, so an advance makes at most eighteen requests and a
 resume at most nineteen, whatever the environment answers.
 */
module ResidentLoopTermination {
  import opened CanonicalJson
  import opened ResidentRecords
  import opened ResidentReplay
  import opened ResidentLoop

  /** The most requests that may still follow the one to this port. */
  function Rank(mode: Mode, port: Port): nat {
    match port
    case ReadReplay => if mode == Advancing then 17 else 18
    case Reread(AfterSuspension) => 17
    case Append(RecoverySlot) => 16
    case ReadBack(RecoverySlot) => 15
    case CreateCandidate => if mode == Advancing then 16 else 14
    case PrepareBindings => if mode == Advancing then 15 else 13
    case Append(PlanSlot) => if mode == Advancing then 14 else 12
    case ReadBack(PlanSlot) => if mode == Advancing then 13 else 11
    case Append(ContextSlot) => if mode == Advancing then 12 else 10
    case ReadBack(ContextSlot) => if mode == Advancing then 11 else 9
    case RequestTool => if mode == Advancing then 10 else 8
    case ReadDecision => 9
    case ExecuteTool => if mode == Advancing then 8 else 7
    case Reread(_) => 7
    case Append(ToolSlot) => 6
    case ReadBack(ToolSlot) => 5
    case Append(FinalSlot) => 4
    case ReadBack(FinalSlot) => 3
    case ReadHandoff(replayed) => if replayed then 0 else 2
    case Append(ResultSlot) => 1
    case ReadBack(ResultSlot) => 0
  }

  function Most(mode: Mode): nat {
    if mode == Advancing then 18 else 19
  }

  /** Ports that only a resume asks, and one that only an advance does. */
  predicate Belongs(mode: Mode, port: Port) {
    && (port == Reread(AfterSuspension) || port == Append(RecoverySlot) || port == ReadBack(RecoverySlot) ==> mode == Resuming)
    && (port == ReadDecision || port == Reread(AfterDecision) || port == Reread(AfterExecution) ==> mode == Advancing)
  }

  predicate Nearer(mode: Mode, port: Port, m: Move) {
    m.Ask? ==> Belongs(mode, m.port) && Rank(mode, m.port) < Rank(mode, port)
  }

  lemma ReplayNearer(mode: Mode, ready: bool, resumable: bool, l: Locals)
    ensures Nearer(mode, ReadReplay, ReplayMove(mode, ready, resumable, l))
  {
  }

  /** A continuation that may ask this port and no other. */
  predicate AsksOnly(m: Move, port: Port) {
    m.Ask? ==> m.port == port
  }

  lemma NearerByPort(mode: Mode, port: Port, m: Move, next: Port)
    requires AsksOnly(m, next) && Belongs(mode, next) && Rank(mode, next) < Rank(mode, port)
    ensures Nearer(mode, port, m)
  {
  }

  lemma PlanSlotAsks(e: Event, l: Locals)
    ensures AsksOnly(AfterPlanEvent(e, l), Append(ContextSlot))
  {
  }

  lemma ToolSlotAsks(e: Event, l: Locals)
    ensures AsksOnly(AfterToolEvent(e, l), Append(FinalSlot))
  {
  }

  lemma OtherSlotAsks(mode: Mode, slot: Slot, e: Event, l: Locals)
    ensures slot == RecoverySlot ==> AsksOnly(AfterSlot(mode, slot, e, l), CreateCandidate)
    ensures slot == ContextSlot ==> AsksOnly(AfterSlot(mode, slot, e, l), RequestTool)
    ensures slot == FinalSlot ==> AsksOnly(AfterSlot(mode, slot, e, l), ReadHandoff(false))
    ensures slot == ResultSlot ==> !AfterSlot(mode, slot, e, l).Ask?
  {
  }

  lemma SlotNearer(mode: Mode, slot: Slot, e: Event, l: Locals)
    requires Belongs(mode, ReadBack(slot))
    ensures Nearer(mode, ReadBack(slot), AfterSlot(mode, slot, e, l))
  {
    OtherSlotAsks(mode, slot, e, l);
    var m := AfterSlot(mode, slot, e, l);
    match slot
    case RecoverySlot => NearerByPort(mode, ReadBack(slot), m, CreateCandidate);
    case PlanSlot => PlanSlotAsks(e, l); NearerByPort(mode, ReadBack(slot), m, Append(ContextSlot));
    case ContextSlot => NearerByPort(mode, ReadBack(slot), m, RequestTool);
    case ToolSlot => ToolSlotAsks(e, l); NearerByPort(mode, ReadBack(slot), m, Append(FinalSlot));
    case FinalSlot => NearerByPort(mode, ReadBack(slot), m, ReadHandoff(false));
    case ResultSlot =>
  }

  lemma RequestNearer(mode: Mode, i: Issued, m: Material, l: Locals)
    ensures Nearer(mode, RequestTool, AfterRequest(mode, i, m, l))
  {
  }

  lemma AdoptNearer(mode: Mode, port: Port, stage: Stage, i: Issued, m: Material, l: Locals)
    requires Rank(mode, port) > 6
    ensures Nearer(mode, port, AdoptIssued(stage, i, m, l))
  {
  }

  lemma SuspensionAsks(i: Issued, m: Material, l: Locals)
    ensures AsksOnly(AfterSuspensionReread(i, m, l), Append(RecoverySlot))
  {
  }

  lemma IssuedNearer(mode: Mode, port: Port, i: Issued, m: Material, l: Locals)
    requires Belongs(mode, port)
    ensures Nearer(mode, port, AfterIssued(mode, port, i, m, l))
  {
    match port
    case RequestTool => RequestNearer(mode, i, m, l);
    case ExecuteTool => AdoptNearer(mode, port, Completed, i, m, l);
    case Reread(AfterDecision) => AdoptNearer(mode, port, Requested, i, m, l);
    case Reread(AfterExecution) => AdoptNearer(mode, port, Claimed, i, m, l);
    case Reread(AfterSuspension) =>
      SuspensionAsks(i, m, l);
      NearerByPort(mode, port, AfterSuspensionReread(i, m, l), Append(RecoverySlot));
    case _ =>
  }

  lemma BindingsNearer(mode: Mode, bs: seq<Binding>, l: Locals)
    ensures Nearer(mode, PrepareBindings, AfterBindings(mode, bs, l))
  {
  }

  lemma HandoffAsks(replayed: bool, p: HandoffProjection, l: Locals)
    ensures AsksOnly(AfterHandoff(replayed, p, l), Append(ResultSlot))
    ensures replayed ==> !AfterHandoff(replayed, p, l).Ask?
  {
  }

  lemma HandoffNearer(mode: Mode, replayed: bool, p: HandoffProjection, l: Locals)
    ensures Nearer(mode, ReadHandoff(replayed), AfterHandoff(replayed, p, l))
  {
    HandoffAsks(replayed, p, l);
    if !replayed { NearerByPort(mode, ReadHandoff(replayed), AfterHandoff(replayed, p, l), Append(ResultSlot)); }
  }

  lemma EventNearer(mode: Mode, port: Port, e: Event, l: Locals)
    requires Belongs(mode, port)
    ensures Nearer(mode, port, AfterEvent(mode, port, e, l))
  {
    if port.ReadBack? { SlotNearer(mode, port.slot, e, l); }
  }

  /** The measure: whatever the port answers, the next request is strictly nearer to the end. */
  lemma EveryContinuationIsNearer(ctx: Context, mode: Mode, port: Port, reply: Reply, l: Locals)
    requires Belongs(mode, port)
    ensures Nearer(mode, port, After(ctx, mode, port, reply, l))
  {
    match reply
    case ReplayReply(_, events) =>
      ReplayNearer(mode, ReplayReady(ctx.accepts(events), events, l.proposed), ReplayResumable(ctx, l.proposed, events), l.(replay := events));
    case EventReply(e) => EventNearer(mode, port, e, l);
    case IssuedReply(i, m) => if m.Some? { IssuedNearer(mode, port, i, m.value, l); }
    case BindingsReply(bs) => BindingsNearer(mode, bs, l);
    case HandoffReply(p) => if port.ReadHandoff? { HandoffNearer(mode, port.replayed, p, l); }
    case _ =>
  }

  // ---------- Over whole runs ----------

  /** The requests made since a call last ended or the process restarted. */
  function RequestsSince(log: seq<Act>): nat {
    if log == [] then 0
    else
      var last := log[|log| - 1];
      if last.Ended? || last.Restarted? then 0
      else RequestsSince(log[..|log| - 1]) + if last.Called? then 1 else 0
  }

  lemma OneActMore(log: seq<Act>, a: Act)
    ensures RequestsSince(log + [a]) == if a.Ended? || a.Restarted? then 0 else RequestsSince(log) + if a.Called? then 1 else 0
  {
    assert (log + [a])[..|log|] == log;
  }

  lemma QuietThen(log: seq<Act>, acts: seq<Act>, last: Act)
    requires |acts| <= 1 && forall a | a in acts :: !a.Ended? && !a.Restarted? && !a.Called?
    ensures RequestsSince(log + acts + [last]) ==
            if last.Ended? || last.Restarted? then 0 else RequestsSince(log) + if last.Called? then 1 else 0
  {
    OneActMore(log + acts, last);
    if acts == [] {
      assert log + acts == log;
    } else {
      assert acts == [acts[0]];
      OneActMore(log, acts[0]);
    }
  }

  predicate CallBounded(requests: nat, call: Call) {
    match call
    case Idle => requests == 0
    case Active(mode, AtPort(port, _), _) => Belongs(mode, port) && requests + Rank(mode, port) <= Most(mode)
    case Active(mode, AtReverify(port, _), _) => Belongs(mode, port) && requests + Rank(mode, port) <= Most(mode)
    case Active(mode, await, _) => if await.AtSuspend? then requests <= Most(mode) else mode == Resuming && requests == 0
  }

  lemma AskedIsBounded(mode: Mode, port: Port, next: Port, requests: nat)
    requires requests + Rank(mode, port) <= Most(mode) && Rank(mode, next) < Rank(mode, port)
    ensures requests + 1 + Rank(mode, next) <= Most(mode)
  {
  }

  lemma ContinueBounded(ctx: Context, w: World, next: Token)
    requires w.loop.call.Active? && w.loop.call.await.AtReverify? && CallBounded(RequestsSince(w.log), w.loop.call)
    ensures var t := Continue(ctx, w, next); CallBounded(RequestsSince(t.log), t.loop.call)
  {
    var call := w.loop.call;
    var port := call.await.port;
    var m := After(ctx, call.mode, port, call.await.reply, call.locals);
    EveryContinuationIsNearer(ctx, call.mode, port, call.await.reply, call.locals);
    match m
    case Ask(p, _) =>
      AskedIsBounded(call.mode, port, p, RequestsSince(w.log));
      QuietThen(w.log, [Granted(next)], Called(p));
    case Suspend =>
      QuietThen(w.log, [Granted(next)], PresentedToSuspend(next));
      assert w.log + [Granted(next), PresentedToSuspend(next)] == w.log + [Granted(next)] + [PresentedToSuspend(next)];
    case Return(e) => QuietThen(w.log, [Granted(next)], Ended(CompletedWith(e)));
    case Throw => QuietThen(w.log, [Granted(next)], Ended(FailedCall));
  }

  lemma DeliverBounded(ctx: Context, w: World)
    requires Enabled(ctx, w, Deliver) && CallBounded(RequestsSince(w.log), w.loop.call)
    ensures var t := Apply(ctx, w, Deliver); CallBounded(RequestsSince(t.log), t.loop.call)
  {
    var call := w.loop.call;
    var acts := if call.await.answer.value.Rejected? then [RejectedBy(call.await.port)] else [];
    QuietThen(w.log, acts, Ended(FailedCall));
    if w.loop.token.Some? { QuietThen(w.log, acts, Presented(w.loop.token.value)); }
  }

  lemma BeginBounded(ctx: Context, w: World, s: StepLabel)
    requires (s.BeginAdvance? || s.BeginResume?) && CallBounded(RequestsSince(w.log), w.loop.call)
    ensures var t := Apply(ctx, w, s); CallBounded(RequestsSince(t.log), t.loop.call)
  {
    BeginLogs(ctx, w, s);
    QuietThen(w.log, [], Ended(FailedCall));
    QuietThen(w.log, [], if s.BeginAdvance? then Called(ReadReplay) else ResumeBegun);
  }

  lemma BeginLogs(ctx: Context, w: World, s: StepLabel)
    requires s.BeginAdvance? || s.BeginResume?
    ensures w.log + [] == w.log
    ensures var t := Apply(ctx, w, s);
            || t == w
            || (t.loop.call.Idle? && t.log == w.log + [] + [Ended(FailedCall)])
            || (!w.loop.call.Active? && s.BeginAdvance? && t.log == w.log + [] + [Called(ReadReplay)]
                && t.loop.call.Active? && t.loop.call.mode == Advancing && t.loop.call.await == AtPort(ReadReplay, None))
            || (!w.loop.call.Active? && s.BeginResume? && t.log == w.log + [] + [ResumeBegun]
                && t.loop.call.Active? && t.loop.call.mode == Resuming && t.loop.call.await == AtRecover)
  {
    assert w.log + [] == w.log;
  }

  lemma StepBounded(ctx: Context, w: World, s: StepLabel)
    requires Enabled(ctx, w, s) && CallBounded(RequestsSince(w.log), w.loop.call)
    ensures var t := Apply(ctx, w, s); CallBounded(RequestsSince(t.log), t.loop.call)
  {
    assert w.log + [] == w.log;
    match s
    case BeginAdvance(_) => BeginBounded(ctx, w, s);
    case BeginResume(_) => BeginBounded(ctx, w, s);
    case Deliver => DeliverBounded(ctx, w);
    case Reverified(next) =>
      if next.Some? { ContinueBounded(ctx, w, next.value); } else { QuietThen(w.log, [Refused], Ended(FailedCall)); }
    case Crash(restart) => QuietThen(w.log, [], Restarted(restart));
    case Answer(_, _) =>
    case OtherWriter(_) =>
    case _ => AuthorityBounded(ctx, w, s);
  }

  lemma AuthorityBounded(ctx: Context, w: World, s: StepLabel)
    requires Enabled(ctx, w, s) && (s.SuspendSettled? || s.RecoverSettled? || s.ReclaimSettled?)
    requires CallBounded(RequestsSince(w.log), w.loop.call)
    ensures var t := Apply(ctx, w, s); CallBounded(RequestsSince(t.log), t.loop.call)
  {
    assert w.log + [] == w.log;
    QuietThen(w.log, [], Ended(FailedCall));
    QuietThen(w.log, [], Ended(SuspendedCall));
    if s.ReclaimSettled? && s.next.Some? { QuietThen(w.log, [Reclaimed(s.next.value)], Called(ReadReplay)); }
  }

  lemma {:induction false} RunBounded(ctx: Context, ws: seq<World>, ss: seq<StepLabel>, n: nat)
    requires Run(ctx, ws, ss) && n < |ws|
    ensures CallBounded(RequestsSince(ws[n].log), ws[n].loop.call)
    decreases n
  {
    if n > 0 {
      RunBounded(ctx, ws, ss, n - 1);
      StepBounded(ctx, ws[n - 1], ss[n - 1]);
    }
  }

  /** In every run no call makes more than eighteen requests, or nineteen if it is a resume. */
  lemma RequestsAreBounded(ctx: Context, ws: seq<World>, ss: seq<StepLabel>, n: nat)
    requires Run(ctx, ws, ss) && n < |ws|
    ensures RequestsSince(ws[n].log) <= 19
    ensures ws[n].loop.call.Active? && ws[n].loop.call.mode == Advancing ==> RequestsSince(ws[n].log) <= 18
  {
    RunBounded(ctx, ws, ss, n);
  }
}
