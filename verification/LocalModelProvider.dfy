/**
 The concurrency reservation of the local model provider. Every admitted
 invocation takes a reservation; it is given back when the invocation ends, or,
 when a deadline abandons engine work that is still going on, once that work
 settles. Invocations interleave at every await and the engine settles its work
 whenever it likes.
 */
module LocalModelProvider {
  import opened CanonicalJson

  datatype Preparation = Preparation(binding: Value, outputUnitBudget: int)

  datatype Category =
    | PreparationInvalid | SelectionMismatch | PreparationStale | BudgetExhausted | ConcurrencyExhausted
    | TimeBudgetExhausted | EngineUnavailable | CapabilityUnsupported

  datatype Result = Executed(inputUnits: int, outputUnits: int) | Unavailable(category: Category) | Blocked(category: Category)

  /** What the engine's inspect or execute promise settles with. */
  datatype Settlement = Failed | Malformed | NotAvailable | Inspection(details: Value) | Usage(inputUnits: int, outputUnits: int)

  datatype Work = NotStarted | Unsettled | Settled(settlement: Settlement)

  /** The local variables of one admitted invocation. */
  datatype Invocation = Invocation(
    preparation: Preparation, inspection: Work, execution: Work, retained: bool, released: bool, result: Option<Result>)

  /**
   The configuration, with the verdicts of the checks that read nothing
   mutable: refusal is the first of the four preparation checks that fails, and
   supports is whether the inspected engine can serve the preparation.
   */
  datatype Config = Config(
    refusal: Preparation -> Option<Result>, supports: (Value, Preparation) -> bool,
    maxConcurrent: nat, maxInputUnits: int, maxOutputUnits: int)

  datatype State = State(active: int, calls: seq<Invocation>)

  // ---------- One step, as a function ----------

  datatype Label =
    | Invoke(candidate: Option<Preparation>)
    | EngineSettles(id: nat, executing: bool, settlement: Settlement)
    | InspectionReturns(id: nat, timedOut: bool)
    | ExecutionReturns(id: nat, timedOut: bool)
    | LateRelease(id: nat)

  predicate Enabled(s: State, l: Label) {
    match l
    case Invoke(_) => true
    case EngineSettles(id, executing, _) =>
      id < |s.calls| && (if executing then s.calls[id].execution else s.calls[id].inspection).Unsettled?
    case InspectionReturns(id, timedOut) =>
      && id < |s.calls| && s.calls[id].result.None? && s.calls[id].execution.NotStarted?
      && (timedOut || s.calls[id].inspection.Settled?)
    case ExecutionReturns(id, timedOut) =>
      && id < |s.calls| && s.calls[id].result.None? && !s.calls[id].execution.NotStarted?
      && (timedOut || s.calls[id].execution.Settled?)
    case LateRelease(id) => id < |s.calls| && s.calls[id].retained && !Abandoned(s.calls[id]) && !s.calls[id].released
  }

  /** The engine work that a deadline left behind is still going on. */
  predicate Abandoned(c: Invocation) {
    c.retained && (c.inspection.Unsettled? || c.execution.Unsettled?)
  }

  function AfterInspection(config: Config, c: Invocation): Option<Result>
    requires c.inspection.Settled?
  {
    match c.inspection.settlement
    case Inspection(details) =>
      if config.supports(details, c.preparation) then None else Some(Unavailable(CapabilityUnsupported))
    case _ => Some(Unavailable(EngineUnavailable))
  }

  function AfterExecution(config: Config, c: Invocation): (r: Result)
    requires c.execution.Settled?
    ensures r.Executed? ==> r.inputUnits <= config.maxInputUnits && r.outputUnits <= config.maxOutputUnits
                            && r.outputUnits <= c.preparation.outputUnitBudget
  {
    match c.execution.settlement
    case Usage(input, output) =>
      if input < 0 || output < 0 then Unavailable(EngineUnavailable)
      else if input > config.maxInputUnits || output > config.maxOutputUnits || output > c.preparation.outputUnitBudget
      then Blocked(BudgetExhausted)
      else Executed(input, output)
    case _ => Unavailable(EngineUnavailable)
  }

  function Replace(s: State, id: nat, c: Invocation): State
    requires id < |s.calls|
  {
    s.(calls := s.calls[id := c])
  }

  /** Ends the invocation; the reservation goes with it unless the engine work keeps it. */
  function Finish(s: State, id: nat, result: Result, retained: bool): State
    requires id < |s.calls|
  {
    var ended := Replace(s, id, s.calls[id].(result := Some(result), retained := retained));
    if retained then ended else Release(ended, id)
  }

  function Release(s: State, id: nat): State
    requires id < |s.calls|
  {
    if s.calls[id].released then s
    else State(s.active - 1, s.calls[id := s.calls[id].(released := true)])
  }

  /** The answer to an invocation that never takes a reservation. */
  function Rejection(config: Config, s: State, candidate: Option<Preparation>): Option<Result> {
    match candidate
    case None => Some(Blocked(PreparationInvalid))
    case Some(p) =>
      match config.refusal(p)
      case Some(r) => Some(r)
      case None => if s.active >= config.maxConcurrent then Some(Blocked(ConcurrencyExhausted)) else None
  }

  function Step(config: Config, s: State, l: Label): State
    requires Enabled(s, l)
  {
    match l
    case Invoke(candidate) =>
      if Rejection(config, s, candidate).Some? then s
      else State(s.active + 1, s.calls + [Invocation(candidate.value, Unsettled, NotStarted, false, false, None)])
    case EngineSettles(id, executing, settlement) =>
      Replace(s, id, if executing then s.calls[id].(execution := Settled(settlement)) else s.calls[id].(inspection := Settled(settlement)))
    case InspectionReturns(id, timedOut) =>
      if timedOut then Finish(s, id, Blocked(TimeBudgetExhausted), true)
      else
        (match AfterInspection(config, s.calls[id])
         case Some(r) => Finish(s, id, r, false)
         case None => Replace(s, id, s.calls[id].(execution := Unsettled)))
    case ExecutionReturns(id, timedOut) =>
      if timedOut then Finish(s, id, Blocked(TimeBudgetExhausted), true)
      else Finish(s, id, AfterExecution(config, s.calls[id]), false)
    case LateRelease(id) => Release(s, id)
  }

  // ---------- The provider ----------

  class Provider {
    const config: Config
    var activeInvocations: int
    var calls: seq<Invocation>

    function Now(): State
      reads this
    {
      State(activeInvocations, calls)
    }

    constructor (config: Config)
      ensures this.config == config && Now() == State(0, [])
    {
      this.config := config;
      activeInvocations, calls := 0, [];
    }

    method Begin(candidate: Option<Preparation>) returns (rejected: Option<Result>)
      modifies this
      ensures Now() == Step(config, old(Now()), Invoke(candidate))
      ensures rejected == Rejection(config, old(Now()), candidate)
    {
      if candidate.None? { return Some(Blocked(PreparationInvalid)); }
      var refused := config.refusal(candidate.value);
      if refused.Some? { return refused; }
      if activeInvocations >= config.maxConcurrent { return Some(Blocked(ConcurrencyExhausted)); }
      activeInvocations := activeInvocations + 1;
      calls := calls + [Invocation(candidate.value, Unsettled, NotStarted, false, false, None)];
      return None;
    }

    /** releaseReservation: the second and later calls do nothing. */
    method ReleaseReservation(id: nat)
      requires id < |calls|
      modifies this
      ensures Now() == Release(old(Now()), id)
    {
      if !calls[id].released {
        calls := calls[id := calls[id].(released := true)];
        activeInvocations := activeInvocations - 1;
      }
    }

    /** The value an invocation returns, with the finally block behind it. */
    method Return(id: nat, result: Result, retained: bool)
      requires id < |calls|
      modifies this
      ensures Now() == Finish(old(Now()), id, result, retained)
    {
      calls := calls[id := calls[id].(result := Some(result), retained := retained)];
      if !retained { ReleaseReservation(id); }
    }

    method ResumeAfterInspection(id: nat, timedOut: bool)
      requires Enabled(Now(), InspectionReturns(id, timedOut))
      modifies this
      ensures Now() == Step(config, old(Now()), InspectionReturns(id, timedOut))
    {
      if timedOut {
        Return(id, Blocked(TimeBudgetExhausted), true);
        return;
      }
      var failure := AfterInspection(config, calls[id]);
      if failure.Some? {
        Return(id, failure.value, false);
      } else {
        calls := calls[id := calls[id].(execution := Unsettled)];
      }
    }

    method ResumeAfterExecution(id: nat, timedOut: bool)
      requires Enabled(Now(), ExecutionReturns(id, timedOut))
      modifies this
      ensures Now() == Step(config, old(Now()), ExecutionReturns(id, timedOut))
    {
      if timedOut {
        Return(id, Blocked(TimeBudgetExhausted), true);
      } else {
        Return(id, AfterExecution(config, calls[id]), false);
      }
    }

    method WorkSettles(id: nat, executing: bool, settlement: Settlement)
      requires Enabled(Now(), EngineSettles(id, executing, settlement))
      modifies this
      ensures Now() == Step(config, old(Now()), EngineSettles(id, executing, settlement))
    {
      calls := calls[id := if executing then calls[id].(execution := Settled(settlement)) else calls[id].(inspection := Settled(settlement))];
    }

    method OnLateSettlement(id: nat)
      requires Enabled(Now(), LateRelease(id))
      modifies this
      ensures Now() == Step(config, old(Now()), LateRelease(id))
    {
      ReleaseReservation(id);
    }
  }

  // ---------- Counting ----------

  /** How many of the invocations satisfy the predicate. */
  function Count(calls: seq<Invocation>, p: Invocation -> bool): (n: nat)
    ensures n <= |calls|
    ensures n == 0 <==> forall c | c in calls :: !p(c)
  {
    if calls == [] then 0 else Count(calls[..|calls| - 1], p) + if p(calls[|calls| - 1]) then 1 else 0
  }

  lemma {:induction false} CountReplaced(calls: seq<Invocation>, p: Invocation -> bool, id: nat, c: Invocation)
    requires id < |calls|
    ensures Count(calls[id := c], p) == Count(calls, p) - (if p(calls[id]) then 1 else 0) + if p(c) then 1 else 0
  {
    var front, replaced := calls[..|calls| - 1], calls[id := c];
    if id == |calls| - 1 {
      assert replaced[..|calls| - 1] == front;
    } else {
      CountReplaced(front, p, id, c);
      assert replaced[..|calls| - 1] == front[id := c];
    }
  }

  lemma CountOneMore(calls: seq<Invocation>, p: Invocation -> bool, c: Invocation)
    ensures Count(calls + [c], p) == Count(calls, p) + if p(c) then 1 else 0
  {
    assert (calls + [c])[..|calls|] == calls;
  }

  /** Whether the invocation still holds its reservation. */
  const HOLDS: Invocation -> bool := (c: Invocation) => !c.released

  /** Running: the invocation has not returned; waiting: it has, and the engine work it left behind has not let go. */
  predicate Running(c: Invocation) { c.result.None? }

  const RUNS: Invocation -> bool := (c: Invocation) => Running(c)

  const WAITS: Invocation -> bool := (c: Invocation) => !Running(c) && c.retained && !c.released

  // ---------- The invariant ----------

  predicate CallOk(c: Invocation) {
    && !c.inspection.NotStarted?
    && (c.execution.NotStarted? || c.inspection.Settled?)
    && (c.released ==> c.result.Some? && !c.inspection.Unsettled? && !c.execution.Unsettled?)
    && (c.result.None? ==> !c.retained)
    && (c.result.Some? && !c.released ==> c.retained)
    && (c.result.Some? && !c.retained ==> !c.inspection.Unsettled? && !c.execution.Unsettled?)
  }

  predicate Invariant(config: Config, s: State) {
    && (forall c | c in s.calls :: CallOk(c))
    && s.active == Count(s.calls, HOLDS)
    && s.active <= config.maxConcurrent
  }

  lemma ReplaceKeeps(config: Config, s: State, id: nat, c: Invocation)
    requires Invariant(config, s) && id < |s.calls| && CallOk(c)
    ensures c.released == s.calls[id].released ==> Invariant(config, Replace(s, id, c))
    ensures c.released && !s.calls[id].released ==> Invariant(config, State(s.active - 1, s.calls[id := c]))
  {
    CountReplaced(s.calls, HOLDS, id, c);
    forall d | d in s.calls[id := c] ensures CallOk(d) {
      var k :| 0 <= k < |s.calls| && s.calls[id := c][k] == d;
      if k != id { assert s.calls[k] == d; }
    }
  }

  lemma StepKeeps(config: Config, s: State, l: Label)
    requires Invariant(config, s) && Enabled(s, l)
    ensures Invariant(config, Step(config, s, l))
  {
    match l
    case Invoke(candidate) =>
      if Rejection(config, s, candidate).None? {
        CountOneMore(s.calls, HOLDS, Invocation(candidate.value, Unsettled, NotStarted, false, false, None));
      }
    case EngineSettles(id, executing, settlement) =>
      var c := s.calls[id];
      assert c in s.calls;
      ReplaceKeeps(config, s, id, if executing then c.(execution := Settled(settlement)) else c.(inspection := Settled(settlement)));
    case InspectionReturns(id, timedOut) => InspectionKeeps(config, s, id, timedOut);
    case ExecutionReturns(id, timedOut) =>
      assert s.calls[id] in s.calls;
      FinishKeeps(config, s, id, if timedOut then Blocked(TimeBudgetExhausted) else AfterExecution(config, s.calls[id]), timedOut);
    case LateRelease(id) =>
      assert s.calls[id] in s.calls;
      ReplaceKeeps(config, s, id, s.calls[id].(released := true));
  }

  lemma FinishKeeps(config: Config, s: State, id: nat, result: Result, retained: bool)
    requires Invariant(config, s) && id < |s.calls| && s.calls[id].result.None?
    requires !retained ==> s.calls[id].inspection.Settled? && !s.calls[id].execution.Unsettled?
    ensures Invariant(config, Finish(s, id, result, retained))
  {
    var c := s.calls[id];
    assert c in s.calls;
    if retained {
      ReplaceKeeps(config, s, id, c.(result := Some(result), retained := true));
    } else {
      var ended := c.(result := Some(result), retained := false, released := true);
      ReplaceKeeps(config, s, id, ended);
      assert s.calls[id := c.(result := Some(result), retained := false)][id := ended] == s.calls[id := ended];
    }
  }

  lemma InspectionKeeps(config: Config, s: State, id: nat, timedOut: bool)
    requires Invariant(config, s) && Enabled(s, InspectionReturns(id, timedOut))
    ensures Invariant(config, Step(config, s, InspectionReturns(id, timedOut)))
  {
    var c := s.calls[id];
    assert c in s.calls;
    if timedOut {
      FinishKeeps(config, s, id, Blocked(TimeBudgetExhausted), true);
    } else {
      match AfterInspection(config, c)
      case Some(r) => FinishKeeps(config, s, id, r, false);
      case None => ReplaceKeeps(config, s, id, c.(execution := Unsettled));
    }
  }

  predicate Run(config: Config, ss: seq<State>, ls: seq<Label>) {
    && |ss| == |ls| + 1
    && ss[0] == State(0, [])
    && forall i | 0 <= i < |ls| :: Enabled(ss[i], ls[i]) && ss[i + 1] == Step(config, ss[i], ls[i])
  }

  lemma {:induction false} RunKeeps(config: Config, ss: seq<State>, ls: seq<Label>, n: nat)
    requires Run(config, ss, ls) && n < |ss|
    ensures Invariant(config, ss[n])
  {
    if n > 0 {
      RunKeeps(config, ss, ls, n - 1);
      StepKeeps(config, ss[n - 1], ls[n - 1]);
    }
  }

  // ---------- Main results ----------

  lemma {:induction false} HoldersSplit(calls: seq<Invocation>)
    requires forall c | c in calls :: CallOk(c)
    ensures Count(calls, HOLDS) == Count(calls, RUNS) + Count(calls, WAITS)
  {
    if calls != [] {
      HoldersSplit(calls[..|calls| - 1]);
      assert CallOk(calls[|calls| - 1]);
    }
  }

  /** Engine work that has been started and has not settled. */
  function UnsettledWorks(calls: seq<Invocation>): (n: nat) {
    if calls == [] then 0
    else
      var last := calls[|calls| - 1];
      UnsettledWorks(calls[..|calls| - 1]) + (if last.inspection.Unsettled? then 1 else 0) + if last.execution.Unsettled? then 1 else 0
  }

  lemma {:induction false} WorksAreHeld(calls: seq<Invocation>)
    requires forall c | c in calls :: CallOk(c)
    ensures UnsettledWorks(calls) <= Count(calls, HOLDS)
  {
    if calls != [] {
      WorksAreHeld(calls[..|calls| - 1]);
      assert CallOk(calls[|calls| - 1]);
    }
  }

  /**
   Over every interleaving: the counter equals the invocations still running
   plus those that returned and whose abandoned work has not let go, it stays
   between 0 and the maximum, and never are more engine works unsettled than it
   counts.
   */
  lemma ReservationsAreExact(config: Config, ss: seq<State>, ls: seq<Label>, n: nat)
    requires Run(config, ss, ls) && n < |ss|
    ensures ss[n].active == Count(ss[n].calls, RUNS) + Count(ss[n].calls, WAITS)
    ensures 0 <= ss[n].active <= config.maxConcurrent
    ensures UnsettledWorks(ss[n].calls) <= ss[n].active
  {
    RunKeeps(config, ss, ls, n);
    HoldersSplit(ss[n].calls);
    WorksAreHeld(ss[n].calls);
  }

  /** Nothing but new invocations can happen any more. */
  ghost predicate Quiescent(s: State) {
    forall l :: Enabled(s, l) ==> l.Invoke?
  }

  /** When nothing is left to happen, every reservation is back; and as long as one is out, something can happen. */
  lemma QuiescenceFreesAll(config: Config, ss: seq<State>, ls: seq<Label>, n: nat)
    requires Run(config, ss, ls) && n < |ss|
    ensures ss[n].active == 0 <==> Quiescent(ss[n])
  {
    RunKeeps(config, ss, ls, n);
    var s := ss[n];
    if s.active == 0 {
      forall i | 0 <= i < |s.calls| ensures CallOk(s.calls[i]) && s.calls[i].released {
        assert s.calls[i] in s.calls && !HOLDS(s.calls[i]);
      }
      forall l | Enabled(s, l) ensures l.Invoke? { FreedHasNoStep(s, l); }
    } else {
      var c :| c in s.calls && HOLDS(c);
      var id :| 0 <= id < |s.calls| && s.calls[id] == c;
      HolderCanStep(s, id);
    }
  }

  lemma FreedHasNoStep(s: State, l: Label)
    requires forall i | 0 <= i < |s.calls| :: CallOk(s.calls[i]) && s.calls[i].released
    requires Enabled(s, l)
    ensures l.Invoke?
  {
  }

  /** An invocation that holds its reservation has a step left: it, its deadline or the engine. */
  lemma HolderCanStep(s: State, id: nat)
    requires id < |s.calls| && !s.calls[id].released && CallOk(s.calls[id])
    ensures !Quiescent(s)
  {
    var c := s.calls[id];
    if c.result.None? {
      if c.execution.NotStarted? {
        assert Enabled(s, InspectionReturns(id, true));
      } else {
        assert Enabled(s, ExecutionReturns(id, true));
      }
    } else if c.inspection.Unsettled? {
      assert Enabled(s, EngineSettles(id, false, Failed));
    } else if c.execution.Unsettled? {
      assert Enabled(s, EngineSettles(id, true, Failed));
    } else {
      assert Enabled(s, LateRelease(id));
    }
  }

  /** The steps before n at which the invocation gave its reservation back. */
  function Releases(ss: seq<State>, id: nat, n: nat): nat
    requires n < |ss|
  {
    if n == 0 then 0
    else
      Releases(ss, id, n - 1) +
      if id < |ss[n].calls| && ss[n].calls[id].released && !(id < |ss[n - 1].calls| && ss[n - 1].calls[id].released) then 1 else 0
  }

  lemma ReleaseLasts(config: Config, s: State, l: Label, id: nat)
    requires Enabled(s, l) && id < |s.calls|
    ensures |Step(config, s, l).calls| >= |s.calls|
    ensures s.calls[id].released ==> Step(config, s, l).calls[id].released
    ensures s.calls[id].result.Some? ==> Step(config, s, l).calls[id].result == s.calls[id].result
  {
  }

  /** Each reservation is given back exactly once: never twice, and once it shows as released, once. */
  lemma {:induction false} ReleasedOnce(config: Config, ss: seq<State>, ls: seq<Label>, id: nat, n: nat)
    requires Run(config, ss, ls) && n < |ss|
    ensures Releases(ss, id, n) == if id < |ss[n].calls| && ss[n].calls[id].released then 1 else 0
  {
    if n > 0 {
      ReleasedOnce(config, ss, ls, id, n - 1);
      if id < |ss[n - 1].calls| { ReleaseLasts(config, ss[n - 1], ls[n - 1], id); }
    }
  }

  /** The result an invocation returned never changes, and an abandoned one never turns out executed. */
  lemma {:induction false} ResultIsFinal(config: Config, ss: seq<State>, ls: seq<Label>, id: nat, m: nat, n: nat)
    requires Run(config, ss, ls) && m <= n < |ss| && id < |ss[m].calls| && ss[m].calls[id].result.Some?
    ensures id < |ss[n].calls| && ss[n].calls[id].result == ss[m].calls[id].result
    decreases n
  {
    if m < n {
      ResultIsFinal(config, ss, ls, id, m, n - 1);
      ReleaseLasts(config, ss[n - 1], ls[n - 1], id);
    }
  }

  // ---------- Why an invocation returned what it returned ----------

  /** The inspection has settled with an engine that can serve the preparation. */
  predicate Served(config: Config, c: Invocation) {
    c.inspection.Settled? && c.inspection.settlement.Inspection? && config.supports(c.inspection.settlement.details, c.preparation)
  }

  /** The execution has settled with a usage report. */
  predicate Reported(c: Invocation) {
    && c.execution.Settled? && c.execution.settlement.Usage?
    && c.execution.settlement.inputUnits >= 0 && c.execution.settlement.outputUnits >= 0
  }

  predicate WithinBudget(config: Config, c: Invocation)
    requires Reported(c)
  {
    && c.execution.settlement.inputUnits <= config.maxInputUnits
    && c.execution.settlement.outputUnits <= config.maxOutputUnits
    && c.execution.settlement.outputUnits <= c.preparation.outputUnitBudget
  }

  /** An execution is started for a served preparation only, and what is returned follows from what the engine settled with. */
  predicate Explained(config: Config, c: Invocation) {
    && (!c.execution.NotStarted? ==> Served(config, c))
    && match c.result
       case None => true
       case Some(Executed(input, output)) =>
         !c.retained && Reported(c) && WithinBudget(config, c) && c.execution.settlement == Usage(input, output)
       case Some(Blocked(category)) =>
         if c.retained then category == TimeBudgetExhausted
         else category == BudgetExhausted && Reported(c) && !WithinBudget(config, c)
       case Some(Unavailable(category)) =>
         && !c.retained
         && (category == CapabilityUnsupported || category == EngineUnavailable)
         && (category == CapabilityUnsupported ==> c.execution.NotStarted? && c.inspection.Settled? && c.inspection.settlement.Inspection?
                                                   && !Served(config, c))
         && (category == EngineUnavailable ==>
               (if c.execution.NotStarted? then c.inspection.Settled? && !c.inspection.settlement.Inspection? else c.execution.Settled? && !Reported(c)))
  }

  lemma StepExplains(config: Config, s: State, l: Label)
    requires Enabled(s, l) && (forall c | c in s.calls :: CallOk(c) && Explained(config, c))
    ensures forall c | c in Step(config, s, l).calls :: Explained(config, c)
  {
    var t := Step(config, s, l);
    forall c | c in t.calls ensures Explained(config, c) {
      var k :| 0 <= k < |t.calls| && t.calls[k] == c;
      if k < |s.calls| {
        assert s.calls[k] in s.calls;
        CallExplained(config, s, l, k);
      }
    }
  }

  lemma CallExplained(config: Config, s: State, l: Label, k: nat)
    requires Enabled(s, l) && k < |s.calls| && CallOk(s.calls[k]) && Explained(config, s.calls[k])
    ensures k < |Step(config, s, l).calls| && Explained(config, Step(config, s, l).calls[k])
  {
  }

  /**
   In every run each result follows from what the engine settled with: executed
   within the budgets, blocked because it went over them or because a deadline
   abandoned the work, or unavailable because the engine was. Nothing is executed
   on an inspection that does not support the preparation.
   */
  lemma {:induction false} ResultsAreExplained(config: Config, ss: seq<State>, ls: seq<Label>, n: nat)
    requires Run(config, ss, ls) && n < |ss|
    ensures forall c | c in ss[n].calls :: Explained(config, c)
  {
    if n > 0 {
      ResultsAreExplained(config, ss, ls, n - 1);
      RunKeeps(config, ss, ls, n - 1);
      StepExplains(config, ss[n - 1], ls[n - 1]);
    }
  }

  /** An invocation is admitted exactly when it parses, no check refuses it and a reservation is free, and it starts with an inspection. */
  lemma AdmittedExactly(config: Config, ss: seq<State>, ls: seq<Label>, n: nat, candidate: Option<Preparation>)
    requires Run(config, ss, ls) && n < |ls| && ls[n] == Invoke(candidate)
    ensures if candidate.Some? && config.refusal(candidate.value) == None && ss[n].active < config.maxConcurrent
            then ss[n + 1] == State(ss[n].active + 1, ss[n].calls + [Invocation(candidate.value, Unsettled, NotStarted, false, false, None)])
            else ss[n + 1] == ss[n]
  {
    assert Enabled(ss[n], ls[n]) && ss[n + 1] == Step(config, ss[n], ls[n]);
  }
}
