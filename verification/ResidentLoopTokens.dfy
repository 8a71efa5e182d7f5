/**
 Currentness tokens over whole runs of a resident loop: no token is presented
 twice, a successful reverification separates requests, and after a refusal or
 a suspension nothing is asked until a resume reclaims.
 */
module ResidentLoopTokens {
  import opened CanonicalJson
  import opened ResidentRecords
  import opened ResidentLoop

  // ---------- The discipline, as an automaton over what an observer sees ----------

  datatype Guard =
    | Clear      // a fresh token is held, no request is open
    | Pending    // a request was made with the last token
    | Lost       // that request was rejected
    | Verifying  // the token has been presented
    | Blocked    // no token is held
    | Violated

  function OnAct(g: Guard, a: Act): Guard {
    match (a, g)
    case (Called(_), Clear) => Pending
    case (RejectedBy(_), Pending) => Lost
    case (Presented(_), Pending) => Verifying
    case (Presented(_), Lost) => Verifying
    case (Granted(_), Verifying) => Clear
    case (Refused, Verifying) => Blocked
    case (PresentedToSuspend(_), Clear) => Blocked
    case (ResumeBegun, Clear) => Blocked
    case (ResumeBegun, Blocked) => Blocked
    case (Reclaimed(_), Blocked) => Clear
    case (Ended(_), Clear) => Clear
    case (Ended(_), Lost) => Clear
    case (Ended(_), Blocked) => Blocked
    case (Restarted(_), _) => if g == Violated then Violated else Clear
    case _ => Violated
  }

  function Scan(g: Guard, log: seq<Act>): Guard {
    if log == [] then g else OnAct(Scan(g, log[..|log| - 1]), log[|log| - 1])
  }

  lemma {:induction false} ScanOver(g: Guard, a: seq<Act>, b: seq<Act>)
    ensures Scan(g, a + b) == Scan(Scan(g, a), b)
  {
    if b == [] {
      assert a + b == a;
    } else {
      var front := b[..|b| - 1];
      ScanOver(g, a, front);
      assert (a + b)[..|a + b| - 1] == a + front;
    }
  }

  lemma ScanOne(g: Guard, a: Act)
    ensures Scan(g, [a]) == OnAct(g, a)
  {
    assert [a][..0] == [];
  }

  /** A log grown by some acts and one more is scanned through them in order. */
  lemma ScanGrown(log: seq<Act>, acts: seq<Act>, last: Act)
    requires |acts| <= 1
    ensures Scan(Clear, log + acts + [last]) ==
            OnAct(if acts == [] then Scan(Clear, log) else OnAct(Scan(Clear, log), acts[0]), last)
  {
    ScanOver(Clear, log + acts, [last]);
    ScanOver(Clear, log, acts);
    ScanOne(Scan(Clear, log + acts), last);
    if |acts| == 1 {
      assert acts == [acts[0]];
      ScanOne(Scan(Clear, log), acts[0]);
    } else {
      assert log + acts == log;
    }
  }

  // ---------- The invariant ----------

  /** The guard that the loop's own state stands for. */
  predicate GuardMatches(loop: Loop, g: Guard) {
    match loop.call
    case Idle => g == if loop.token.Some? then Clear else Blocked
    case Active(_, AtPort(_, _), _) => g == Pending && loop.token.Some?
    case Active(_, AtReverify(_, _), _) => g == Verifying && loop.token.None?
    case Active(_, _, _) => g == Blocked && loop.token.None?
  }

  function TokenOf(a: Act): Option<Token> {
    match a
    case Presented(t) => Some(t)
    case PresentedToSuspend(t) => Some(t)
    case _ => None
  }

  /** No token appears in two presentations. */
  predicate TokensLinear(log: seq<Act>) {
    forall i, j | 0 <= i < j < |log| :: TokenOf(log[i]).Some? ==> TokenOf(log[i]) != TokenOf(log[j])
  }

  predicate PresentedWithin(log: seq<Act>, issued: set<Token>) {
    forall i | 0 <= i < |log| :: TokenOf(log[i]).Some? ==> TokenOf(log[i]).value in issued
  }

  predicate NeverPresented(log: seq<Act>, t: Token) {
    forall i | 0 <= i < |log| :: TokenOf(log[i]) != Some(t)
  }

  predicate TokenInvariant(w: World) {
    && GuardMatches(w.loop, Scan(Clear, w.log))
    && TokensLinear(w.log)
    && PresentedWithin(w.log, w.issued)
    && (w.loop.token.Some? ==> w.loop.token.value in w.issued && NeverPresented(w.log, w.loop.token.value))
  }

  /** The holder of a log loses nothing by acts that present no token. */
  lemma QuietActs(log: seq<Act>, acts: seq<Act>, issued: set<Token>)
    requires TokensLinear(log) && PresentedWithin(log, issued)
    requires forall a | a in acts :: TokenOf(a).None?
    ensures TokensLinear(log + acts) && PresentedWithin(log + acts, issued)
    ensures forall t | NeverPresented(log, t) :: NeverPresented(log + acts, t)
  {
    var all := log + acts;
    forall i | |log| <= i < |all| ensures TokenOf(all[i]).None? {
      assert all[i] in acts;
    }
  }

  lemma PresentingAct(log: seq<Act>, a: Act, issued: set<Token>)
    requires TokensLinear(log) && PresentedWithin(log, issued)
    requires TokenOf(a).Some? && TokenOf(a).value in issued && NeverPresented(log, TokenOf(a).value)
    ensures TokensLinear(log + [a]) && PresentedWithin(log + [a], issued)
  {
  }

  lemma FreshIsNeverPresented(log: seq<Act>, issued: set<Token>, t: Token)
    requires PresentedWithin(log, issued) && t !in issued
    ensures NeverPresented(log, t)
  {
  }

  lemma EndKeeps(w: World, token: Option<Token>, acts: seq<Act>, outcome: Outcome)
    requires TokensLinear(w.log) && PresentedWithin(w.log, w.issued)
    requires token.Some? ==> token.value in w.issued && NeverPresented(w.log, token.value)
    requires |acts| <= 1 && forall a | a in acts :: TokenOf(a).None?
    requires OnAct(if acts == [] then Scan(Clear, w.log) else OnAct(Scan(Clear, w.log), acts[0]), Ended(outcome)) ==
             if token.Some? then Clear else Blocked
    ensures TokenInvariant(End(w, token, acts, outcome))
  {
    ScanGrown(w.log, acts, Ended(outcome));
    QuietActs(w.log, acts, w.issued);
    QuietActs(w.log + acts, [Ended(outcome)], w.issued);
  }

  lemma AskKeeps(w: World, token: Token, acts: seq<Act>, mode: Mode, port: Port, l: Locals)
    requires TokensLinear(w.log) && PresentedWithin(w.log, w.issued)
    requires token in w.issued && NeverPresented(w.log, token)
    requires |acts| <= 1 && forall a | a in acts :: TokenOf(a).None?
    requires (if acts == [] then Scan(Clear, w.log) else OnAct(Scan(Clear, w.log), acts[0])) == Clear
    ensures TokenInvariant(AskPort(w, Some(token), acts, mode, port, l))
  {
    ScanGrown(w.log, acts, Called(port));
    QuietActs(w.log, acts, w.issued);
    QuietActs(w.log + acts, [Called(port)], w.issued);
  }

  lemma ContinueKeeps(ctx: Context, w: World, next: Token)
    requires TokenInvariant(w) && next !in w.issued
    requires w.loop.call.Active? && w.loop.call.await.AtReverify?
    ensures TokenInvariant(Continue(ctx, w, next))
  {
    var call := w.loop.call;
    var v := w.(issued := w.issued + {next});
    FreshIsNeverPresented(w.log, w.issued, next);
    match After(ctx, call.mode, call.await.port, call.await.reply, call.locals)
    case Ask(port, l) => AskKeeps(v, next, [Granted(next)], call.mode, port, l);
    case Suspend =>
      assert v.log + [Granted(next), PresentedToSuspend(next)] == v.log + [Granted(next)] + [PresentedToSuspend(next)];
      ScanGrown(v.log, [Granted(next)], PresentedToSuspend(next));
      QuietActs(v.log, [Granted(next)], v.issued);
      PresentingAct(v.log + [Granted(next)], PresentedToSuspend(next), v.issued);
    case Return(e) => EndKeeps(v, Some(next), [Granted(next)], CompletedWith(e));
    case Throw => EndKeeps(v, Some(next), [Granted(next)], FailedCall);
  }

  lemma DeliverKeeps(w: World)
    requires TokenInvariant(w)
    requires w.loop.call.Active? && w.loop.call.await.AtPort? && w.loop.call.await.answer.Some?
    ensures TokenInvariant(DeliverReply(w))
  {
    var call := w.loop.call;
    var port, reply := call.await.port, call.await.answer.value;
    var acts := if reply.Rejected? then [RejectedBy(port)] else [];
    if reply.Rejected? && !Caught(call.mode, port) {
      EndKeeps(w, w.loop.token, acts, FailedCall);
    } else {
      var token := w.loop.token.value;
      ScanGrown(w.log, acts, Presented(token));
      QuietActs(w.log, acts, w.issued);
      PresentingAct(w.log + acts, Presented(token), w.issued);
    }
  }

  lemma BeginKeeps(ctx: Context, w: World, s: StepLabel)
    requires TokenInvariant(w) && Enabled(ctx, w, s)
    requires s.BeginAdvance? || s.BeginResume?
    ensures TokenInvariant(Apply(ctx, w, s))
  {
    if w.loop.call.Idle? {
      match s
      case BeginAdvance(c) =>
        if w.loop.token.None? || !AdvanceAdmissible(ctx, c) {
          EndKeeps(w, w.loop.token, [], FailedCall);
        } else {
          AskKeeps(w, w.loop.token.value, [], Advancing, ReadReplay, StartLocals(c, c.plan));
        }
      case BeginResume(i) =>
        if !ResumeAdmissible(ctx, i) {
          EndKeeps(w, w.loop.token, [], FailedCall);
        } else {
          ScanGrown(w.log, [], ResumeBegun);
          assert w.log + [] == w.log;
          QuietActs(w.log, [ResumeBegun], w.issued);
        }
    }
  }

  lemma StepKeepsTokens(ctx: Context, w: World, s: StepLabel)
    requires TokenInvariant(w) && Enabled(ctx, w, s)
    ensures TokenInvariant(Apply(ctx, w, s))
  {
    match s
    case BeginAdvance(_) => BeginKeeps(ctx, w, s);
    case BeginResume(_) => BeginKeeps(ctx, w, s);
    case Answer(_, _) =>
    case Deliver => DeliverKeeps(w);
    case Reverified(next) =>
      if next.Some? { ContinueKeeps(ctx, w, next.value); } else { EndKeeps(w, None, [Refused], FailedCall); }
    case SuspendSettled(released) => EndKeeps(w, None, [], if released then SuspendedCall else FailedCall);
    case RecoverSettled(recovered) => if !recovered { EndKeeps(w, None, [], FailedCall); }
    case ReclaimSettled(next) =>
      if next.Some? {
        FreshIsNeverPresented(w.log, w.issued, next.value);
        AskKeeps(w.(issued := w.issued + {next.value}), next.value, [Reclaimed(next.value)], Resuming, ReadReplay, w.loop.call.locals);
      } else {
        EndKeeps(w, None, [], FailedCall);
      }
    case Crash(restart) =>
      ScanGrown(w.log, [], Restarted(restart));
      assert w.log + [] == w.log;
      FreshIsNeverPresented(w.log, w.issued, restart);
      QuietActs(w.log, [Restarted(restart)], w.issued);
    case OtherWriter(_) =>
  }

  lemma {:induction false} RunKeepsTokens(ctx: Context, ws: seq<World>, ss: seq<StepLabel>, n: nat)
    requires Run(ctx, ws, ss) && n < |ws|
    ensures TokenInvariant(ws[n])
    decreases n
  {
    if n > 0 {
      RunKeepsTokens(ctx, ws, ss, n - 1);
      StepKeepsTokens(ctx, ws[n - 1], ss[n - 1]);
    }
  }

  // ---------- What the discipline means ----------

  predicate Separates(a: Act) {
    a.Granted? || a.Reclaimed? || a.Restarted? || a.RejectedBy?
  }

  predicate Recovers(a: Act) {
    a.Reclaimed? || a.Restarted?
  }

  lemma {:induction false} ViolationLasts(log: seq<Act>, i: nat)
    requires i <= |log| && Scan(Clear, log[..i]) == Violated
    ensures Scan(Clear, log) == Violated
    decreases |log| - i
  {
    if i == |log| {
      assert log[..i] == log;
    } else {
      assert log[..i + 1][..i] == log[..i];
      ViolationLasts(log, i + 1);
    }
  }

  /** While nothing separates, an open request stays open: the guard is Pending, Verifying or Blocked. */
  lemma {:induction false} StaysOpen(log: seq<Act>, i: nat, j: nat)
    requires i < j <= |log| && log[i].Called?
    requires Scan(Clear, log) != Violated
    requires forall k | i < k < j :: !Separates(log[k])
    ensures Scan(Clear, log[..j]) in {Pending, Verifying, Blocked}
    decreases j
  {
    assert log[..j][..j - 1] == log[..j - 1];
    if Scan(Clear, log[..j]) == Violated { ViolationLasts(log, j); }
    if j > i + 1 {
      StaysOpen(log, i, j - 1);
    }
  }

  lemma {:induction false} StaysBlocked(log: seq<Act>, i: nat, j: nat)
    requires i < j <= |log| && (log[i].Refused? || log[i].PresentedToSuspend? || log[i].ResumeBegun?)
    requires Scan(Clear, log) != Violated
    requires forall k | i < k < j :: !Recovers(log[k])
    ensures Scan(Clear, log[..j]) == Blocked
    decreases j
  {
    assert log[..j][..j - 1] == log[..j - 1];
    if Scan(Clear, log[..j]) == Violated { ViolationLasts(log, j); }
    if j > i + 1 {
      StaysBlocked(log, i, j - 1);
    }
  }

  /** A request is only ever made from the clear guard. */
  lemma CalledFromClear(log: seq<Act>, j: nat)
    requires j < |log| && log[j].Called? && Scan(Clear, log) != Violated
    ensures Scan(Clear, log[..j]) == Clear
  {
    assert log[..j + 1][..j] == log[..j];
    if Scan(Clear, log[..j + 1]) == Violated { ViolationLasts(log, j + 1); }
  }

  /**
   Token linearity over every run, with overlapping calls, crashes and other
   writers: no token is presented twice; between any two requests there is a
   successful reverification, a reclaim or a restart, unless the first request
   was rejected; and after a refused reverification, a suspension or the start
   of a resume no request is made until a reclaim or a restart.
   */
  lemma TokenLinearity(ctx: Context, ws: seq<World>, ss: seq<StepLabel>, n: nat)
    requires Run(ctx, ws, ss) && n < |ws|
    ensures TokensLinear(ws[n].log)
    ensures forall i, j | 0 <= i < j < |ws[n].log| && ws[n].log[i].Called? && ws[n].log[j].Called? ::
              exists k :: i < k < j && Separates(ws[n].log[k])
    ensures forall i, j | 0 <= i < j < |ws[n].log| && ws[n].log[j].Called?
                          && (ws[n].log[i].Refused? || ws[n].log[i].PresentedToSuspend? || ws[n].log[i].ResumeBegun?) ::
              exists k :: i < k < j && Recovers(ws[n].log[k])
  {
    RunKeepsTokens(ctx, ws, ss, n);
    var log := ws[n].log;
    forall i, j | 0 <= i < j < |log| && log[i].Called? && log[j].Called?
      ensures exists k :: i < k < j && Separates(log[k])
    {
      CalledFromClear(log, j);
      if forall k | i < k < j :: !Separates(log[k]) { StaysOpen(log, i, j); }
    }
    forall i, j | 0 <= i < j < |log| && log[j].Called? && (log[i].Refused? || log[i].PresentedToSuspend? || log[i].ResumeBegun?)
      ensures exists k :: i < k < j && Recovers(log[k])
    {
      CalledFromClear(log, j);
      if forall k | i < k < j :: !Recovers(log[k]) { StaysBlocked(log, i, j); }
    }
  }

  // ---------- The one gap: a rejected request keeps its token ----------

  predicate Renews(a: Act) {
    a.Granted? || a.Reclaimed? || a.Restarted?
  }

  /** After the request at i came its rejection and the end of the call, and since then only calls that ended at once. */
  predicate RejectedAndEnded(log: seq<Act>, i: nat, j: nat)
    requires i < j <= |log|
  {
    j >= i + 3 && log[i + 1].RejectedBy? && forall k | i + 2 <= k < j :: log[k].Ended?
  }

  lemma {:induction false} UnrenewedScan(log: seq<Act>, i: nat, j: nat)
    requires i < j <= |log| && log[i].Called? && Scan(Clear, log) != Violated
    requires forall k | i < k < j :: !Renews(log[k]) && !log[k].Called?
    ensures var g := Scan(Clear, log[..j]);
            && g != Violated
            && (g == Pending ==> j == i + 1)
            && (g == Lost ==> j == i + 2 && log[i + 1].RejectedBy?)
            && (g == Clear ==> RejectedAndEnded(log, i, j))
    decreases j
  {
    assert log[..j][..j - 1] == log[..j - 1];
    if Scan(Clear, log[..j]) == Violated { ViolationLasts(log, j); }
    if j > i + 1 { UnrenewedScan(log, i, j - 1); }
  }

  /**
   Between two consecutive requests there is no successful reverification,
   reclaim or restart exactly when the first was rejected, its call ended, and
   every call begun since ended without a request.
   */
  lemma UnseparatedRequests(ctx: Context, ws: seq<World>, ss: seq<StepLabel>, n: nat, i: nat, j: nat)
    requires Run(ctx, ws, ss) && n < |ws|
    requires i < j < |ws[n].log| && ws[n].log[i].Called? && ws[n].log[j].Called?
    requires forall k | i < k < j :: !ws[n].log[k].Called?
    ensures (forall k | i < k < j :: !Renews(ws[n].log[k])) <==> RejectedAndEnded(ws[n].log, i, j)
  {
    RunKeepsTokens(ctx, ws, ss, n);
    var log := ws[n].log;
    CalledFromClear(log, j);
    if forall k | i < k < j :: !Renews(log[k]) { UnrenewedScan(log, i, j); }
  }

  /**
   It does happen: an advance whose replay read is rejected ends with its token
   unspent, and the next advance asks for the replay with no reverification in
   between.
   */
  lemma RejectionLeavesRequestsUnseparated(ctx: Context, c: Candidate, token: Token, ledger: seq<Event>)
    requires AdvanceAdmissible(ctx, c)
    ensures exists ws: seq<World>, ss: seq<StepLabel>, n: nat :: Run(ctx, ws, ss) && n < |ws|
              && ws[n].log == [Called(ReadReplay), RejectedBy(ReadReplay), Ended(FailedCall), Called(ReadReplay)]
              && ws[n].loop.token == Some(token)
  {
    var s0, s1, s2 := BeginAdvance(c), Answer(Rejected, []), Deliver;
    var w0 := Start(token, ledger);
    var w1 := Apply(ctx, w0, s0);
    var w2 := Apply(ctx, w1, s1);
    var w3 := Apply(ctx, w2, s2);
    var w4 := Apply(ctx, w3, s0);
    var ws, ss := [w0, w1, w2, w3, w4], [s0, s1, s2, s0];
    assert ws[0] == Start(token, ledger);
    assert Run(ctx, ws, ss);
    assert ws[4].log == [Called(ReadReplay), RejectedBy(ReadReplay), Ended(FailedCall), Called(ReadReplay)];
  }
}
