/**
 The mutable state of one loop instance, updated in place: the in-flight flag
 that makes calls exclusive and the one-use token. Every method is what one step
 of the loop's state machine does to the two fields: started where the machine
 stands, it ends where the machine goes.
 */
module ResidentLoopState {
  import opened CanonicalJson
  import opened ResidentRecords
  import opened ResidentLoop
  import Tokens = ResidentLoopTokens

  datatype Held = Held(token: Option<Token>, inFlight: bool)

  /** What the machine holds of the two fields: a loop is in flight exactly while a call is active. */
  function HeldBy(l: Loop): Held {
    Held(l.token, l.call.Active?)
  }

  function HeldAfter(ctx: Context, w: World, s: StepLabel): Held
    requires Enabled(ctx, w, s)
  {
    HeldBy(Apply(ctx, w, s).loop)
  }

  class LoopState {
    var token: Option<Token>
    var inFlight: bool

    function Now(): Held
      reads this
    {
      Held(token, inFlight)
    }

    constructor (first: Token, ghost ledger: seq<Event>)
      ensures Now() == HeldBy(Start(first, ledger).loop)
    {
      token, inFlight := Some(first), false;
    }

    /** The beginning of withExclusiveLoop: a second call is turned away and changes nothing. */
    method Enter() returns (entered: bool)
      modifies this
      ensures entered == !old(inFlight) && Now() == Held(old(token), true)
    {
      if inFlight { return false; }
      inFlight := true;
      return true;
    }

    /** The finally block of withExclusiveLoop. */
    method Leave()
      modifies this
      ensures Now() == Held(old(token), false)
    {
      inFlight := false;
    }

    /** The token leaves the state before the authority is asked; without one there is nothing to ask with. */
    method SpendToken() returns (spent: Option<Token>)
      modifies this
      ensures spent == old(token) && Now() == Held(None, old(inFlight))
    {
      spent := token;
      token := None;
    }

    /** Advancing: a call without a token, or with an inadmissible candidate, ends at once. */
    method Advance(ctx: Context, candidate: Candidate, ghost w: World)
      requires Now() == HeldBy(w.loop)
      modifies this
      ensures Now() == HeldAfter(ctx, w, BeginAdvance(candidate))
    {
      var entered := Enter();
      if entered && (token.None? || !AdvanceAdmissible(ctx, candidate)) { Leave(); }
    }

    /** Resuming: the old token is given up before anything is awaited. */
    method Resume(ctx: Context, input: ResumeInput, ghost w: World)
      requires Now() == HeldBy(w.loop)
      modifies this
      ensures Now() == HeldAfter(ctx, w, BeginResume(input))
    {
      var entered := Enter();
      if !entered { return; }
      if ResumeAdmissible(ctx, input) {
        var _ := SpendToken();
      } else {
        Leave();
      }
    }

    /** A port has answered: an uncaught rejection ends the call with its token; any other answer is reverified, which spends it. */
    method TakeUp(ctx: Context, mode: Mode, port: Port, reply: Reply, ghost w: World)
      requires Enabled(ctx, w, Deliver) && Now() == HeldBy(w.loop)
      requires mode == w.loop.call.mode && port == w.loop.call.await.port && reply == w.loop.call.await.answer.value
      modifies this
      ensures Now() == HeldAfter(ctx, w, Deliver)
    {
      if reply.Rejected? && !Caught(mode, port) {
        Leave();
        return;
      }
      var spent := SpendToken();
      if spent.None? { Leave(); }
    }

    /** The authority's answer to a reverification: a new token lets the call go on, which may hand it to a suspension or end. */
    method Reverify(ctx: Context, next: Option<Token>, mode: Mode, port: Port, reply: Reply, locals: Locals, ghost w: World)
      requires Enabled(ctx, w, Reverified(next)) && Now() == HeldBy(w.loop)
      requires w.loop.call == Active(mode, AtReverify(port, reply), locals) && token.None?
      modifies this
      ensures Now() == HeldAfter(ctx, w, Reverified(next))
    {
      if next.None? {
        Leave();
        return;
      }
      token := next;
      match After(ctx, mode, port, reply, locals) {
        case Ask(_, _) =>
        case Suspend => var _ := SpendToken();
        case Return(_) => Leave();
        case Throw => Leave();
      }
    }

    /** The authority has released a suspended loop, or failed to. */
    method Suspended(ctx: Context, released: bool, ghost w: World)
      requires Enabled(ctx, w, SuspendSettled(released)) && Now() == HeldBy(w.loop) && token.None?
      modifies this
      ensures Now() == HeldAfter(ctx, w, SuspendSettled(released))
    {
      Leave();
    }

    /** The suspension prefix of a resuming loop has been recovered, or not. */
    method Recovered(ctx: Context, recovered: bool, ghost w: World)
      requires Enabled(ctx, w, RecoverSettled(recovered)) && Now() == HeldBy(w.loop) && token.None?
      modifies this
      ensures Now() == HeldAfter(ctx, w, RecoverSettled(recovered))
    {
      if !recovered { Leave(); }
    }

    /** The authority has reclaimed the loop, which brings a fresh token, or refused. */
    method Reclaim(ctx: Context, next: Option<Token>, ghost w: World)
      requires Enabled(ctx, w, ReclaimSettled(next)) && Now() == HeldBy(w.loop) && token.None?
      modifies this
      ensures Now() == HeldAfter(ctx, w, ReclaimSettled(next))
    {
      if next.Some? { token := next; } else { Leave(); }
    }
  }

  /** The steps of the environment that are left change neither field. */
  lemma EnvironmentHoldsStill(ctx: Context, w: World, s: StepLabel)
    requires Enabled(ctx, w, s) && (s.Answer? || s.OtherWriter?)
    ensures HeldAfter(ctx, w, s) == HeldBy(w.loop)
  {
  }

  /**
   In every run the state is one of four: idle with or without a token, in flight
   with a token while a port is asked, and in flight without one while the
   authority is. So the methods that need an empty token find it empty.
   */
  lemma TokenHeldExactlyAtPorts(ctx: Context, ws: seq<World>, ss: seq<StepLabel>, n: nat)
    requires Run(ctx, ws, ss) && n < |ws|
    ensures ws[n].loop.call.Active? ==> (ws[n].loop.token.Some? <==> ws[n].loop.call.await.AtPort?)
  {
    Tokens.RunKeepsTokens(ctx, ws, ss, n);
  }

  /** A token that has been presented to the authority is never held again. */
  lemma SpentTokensAreGone(ctx: Context, ws: seq<World>, ss: seq<StepLabel>, n: nat, i: nat)
    requires Run(ctx, ws, ss) && n < |ws| && i < |ws[n].log| && Tokens.TokenOf(ws[n].log[i]).Some?
    ensures ws[n].loop.token != Tokens.TokenOf(ws[n].log[i])
  {
    Tokens.RunKeepsTokens(ctx, ws, ss, n);
  }
}
