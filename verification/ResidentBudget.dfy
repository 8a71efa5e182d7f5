/**
 The ten-field budget record carried by every resident loop event: one-unit
 advances, the check that each record continues the one before it, and what a
 chain of such records conserves.
 */
module ResidentBudget {
  import opened CanonicalJson

  datatype Field =
    | PlanRevisions
    | ObservationRecords
    | ToolSteps
    | ProviderInvocations
    | ProviderRequestBytes
    | ProviderResponseBytes
    | ContextBytes
    | DerivativeArtifactBytes
    | ActiveExecutionMs
    | ApprovalSuspensionMs

  const FIELDS: seq<Field> := [
    PlanRevisions, ObservationRecords, ToolSteps, ProviderInvocations, ProviderRequestBytes,
    ProviderResponseBytes, ContextBytes, DerivativeArtifactBytes, ActiveExecutionMs, ApprovalSuspensionMs
  ]

  function Position(f: Field): (i: nat)
    ensures i < |FIELDS| && FIELDS[i] == f
  {
    match f
    case PlanRevisions => 0
    case ObservationRecords => 1
    case ToolSteps => 2
    case ProviderInvocations => 3
    case ProviderRequestBytes => 4
    case ProviderResponseBytes => 5
    case ContextBytes => 6
    case DerivativeArtifactBytes => 7
    case ActiveExecutionMs => 8
    case ApprovalSuspensionMs => 9
  }

  function HardMaximum(f: Field): nat {
    match f
    case PlanRevisions => 3
    case ObservationRecords => 16
    case ToolSteps => 12
    case ProviderInvocations => 3
    case ProviderRequestBytes => 1_048_576
    case ProviderResponseBytes => 1_048_576
    case ContextBytes => 1_048_576
    case DerivativeArtifactBytes => 16_777_216
    case ActiveExecutionMs => 900_000
    case ApprovalSuspensionMs => 86_400_000
  }

  /** A usage record; a record that lacks one of the ten fields is malformed. */
  type Usage = map<Field, int>

  datatype Budget = Budget(ceilings: Usage, consumed: Usage, remaining: Usage, action: Usage)

  predicate Complete(u: Usage) {
    forall f: Field :: f in u
  }

  predicate FieldValid(b: Budget, f: Field)
    requires f in b.ceilings && f in b.consumed && f in b.remaining && f in b.action
  {
    && b.ceilings[f] == HardMaximum(f)
    && 0 <= b.action[f] <= b.consumed[f] <= b.ceilings[f]
    && b.remaining[f] == b.ceilings[f] - b.consumed[f]
  }

  /** normalizeBudget accepts the record. */
  predicate Valid(b: Budget) {
    && Complete(b.ceilings) && Complete(b.consumed) && Complete(b.remaining) && Complete(b.action)
    && forall f: Field :: FieldValid(b, f)
  }

  /** requireBudgetProgression accepts next after previous. */
  predicate Progress(previous: Budget, next: Budget) {
    && Valid(previous) && Valid(next)
    && forall f: Field :: next.consumed[f] == previous.consumed[f] + next.action[f]
  }

  /** The record with the hard maximum of each of the ten fields. */
  function Ceilings(): (u: Usage)
    ensures Complete(u) && forall f: Field :: u[f] == HardMaximum(f)
  {
    var u := map f: Field | f in FIELDS :: HardMaximum(f) as int;
    assert forall f: Field :: f in u by {
      forall f: Field ensures f in u { assert f == FIELDS[Position(f)]; }
    }
    u
  }

  function OneUnit(field: Field): Usage {
    map f | f in Ceilings() :: if f == field then 1 else 0
  }

  function Spend(consumed: Usage, field: Field): Usage {
    map f | f in consumed :: consumed[f] + if f == field then 1 else 0
  }

  function Left(consumed: Usage): Usage {
    map f | f in consumed :: HardMaximum(f) - consumed[f]
  }

  /** advanceBudget: spend one unit of one field, or fail. */
  function Advance(previous: Budget, field: Field): Option<Budget> {
    if !Valid(previous) || previous.consumed[field] + 1 > HardMaximum(field) then None
    else
      var consumed := Spend(previous.consumed, field);
      Some(Budget(Ceilings(), consumed, Left(consumed), OneUnit(field)))
  }

  // ---------- One advance ----------

  /** An advance succeeds exactly when the record is valid and the field has room. */
  lemma AdvanceSucceedsIff(b: Budget, field: Field)
    ensures Advance(b, field).Some? <==> Valid(b) && b.remaining[field] > 0
  {
    if Valid(b) {
      assert FieldValid(b, field);
    }
  }

  /** What an advance returns is valid, continues its input and spends exactly one unit of the field. */
  lemma AdvanceIsProgress(b: Budget, field: Field)
    requires Advance(b, field).Some?
    ensures var next := Advance(b, field).value;
            && Valid(next)
            && Progress(b, next)
            && (forall f: Field :: next.action[f] == if f == field then 1 else 0)
            && (forall f: Field :: next.remaining[f] == b.remaining[f] - if f == field then 1 else 0)
  {
    var next := Advance(b, field).value;
    forall f: Field
      ensures FieldValid(next, f)
      ensures next.remaining[f] == b.remaining[f] - if f == field then 1 else 0
    {
      assert FieldValid(b, f);
    }
  }

  // ---------- Totals ----------

  /** Units left over the fields from position i on. */
  function LeftFrom(b: Budget, i: nat): int
    requires Complete(b.remaining) && i <= |FIELDS|
    decreases |FIELDS| - i
  {
    if i == |FIELDS| then 0 else b.remaining[FIELDS[i]] + LeftFrom(b, i + 1)
  }

  function TotalRemaining(b: Budget): int
    requires Complete(b.remaining)
  {
    LeftFrom(b, 0)
  }

  lemma {:induction false} LeftIsNonnegative(b: Budget, i: nat)
    requires Valid(b) && i <= |FIELDS|
    ensures LeftFrom(b, i) >= 0
    decreases |FIELDS| - i
  {
    if i < |FIELDS| {
      assert FieldValid(b, FIELDS[i]);
      LeftIsNonnegative(b, i + 1);
    }
  }

  lemma {:induction false} LeftDiffers(b: Budget, next: Budget, field: Field, i: nat)
    requires Complete(b.remaining) && Complete(next.remaining) && i <= |FIELDS|
    requires forall f: Field :: next.remaining[f] == b.remaining[f] - if f == field then 1 else 0
    ensures LeftFrom(next, i) == LeftFrom(b, i) - if i <= Position(field) then 1 else 0
    decreases |FIELDS| - i
  {
    if i < |FIELDS| {
      var f := FIELDS[i];
      LeftDiffers(b, next, field, i + 1);
      PositionOfFields(i);
      assert f == field <==> Position(field) == i;
    }
  }

  lemma PositionOfFields(i: nat)
    requires i < |FIELDS|
    ensures Position(FIELDS[i]) == i
  {
  }

  /** Every advance takes exactly one unit off the total, so advances cannot go on for ever. */
  lemma TotalFallsByOne(b: Budget, field: Field)
    requires Advance(b, field).Some?
    ensures Valid(Advance(b, field).value)
    ensures TotalRemaining(Advance(b, field).value) == TotalRemaining(b) - 1
    ensures TotalRemaining(Advance(b, field).value) >= 0
  {
    AdvanceIsProgress(b, field);
    LeftDiffers(b, Advance(b, field).value, field, 0);
    LeftIsNonnegative(Advance(b, field).value, 0);
  }

  // ---------- Chains ----------

  /** Each record of the chain is accepted after the one before it. */
  predicate Chain(bs: seq<Budget>) {
    && (forall i | 0 <= i < |bs| :: Valid(bs[i]))
    && (forall i | 0 < i < |bs| :: Progress(bs[i - 1], bs[i]))
  }

  /** The chain obtained from a first record by spending one unit of each listed field in turn. */
  function AdvanceAll(first: Budget, fields: seq<Field>): Option<seq<Budget>>
    decreases |fields|
  {
    if fields == [] then Some([first])
    else
      match Advance(first, fields[0])
      case None => None
      case Some(next) =>
        match AdvanceAll(next, fields[1..])
        case None => None
        case Some(rest) => Some([first] + rest)
  }

  function SumOfActions(bs: seq<Budget>, f: Field): int
    requires Chain(bs)
  {
    if bs == [] then 0
    else
      assert Valid(bs[|bs| - 1]);
      SumOfActions(bs[..|bs| - 1], f) + bs[|bs| - 1].action[f]
  }

  lemma TailIsChain(bs: seq<Budget>)
    requires Chain(bs) && bs != []
    ensures Chain(bs[1..])
  {
    assert forall i | 0 <= i < |bs[1..]| :: bs[1..][i] == bs[i + 1];
    forall i | 0 < i < |bs[1..]| ensures Progress(bs[1..][i - 1], bs[1..][i]) { assert Progress(bs[i], bs[i + 1]); }
  }

  /**
   Conservation: what the last record reports as consumed is what the first one
   reported plus everything the later records spent, and never more than the
   hard maximum.
   */
  lemma {:induction false} ChainConserves(bs: seq<Budget>, f: Field)
    requires Chain(bs) && bs != []
    ensures Chain(bs[1..])
    ensures bs[|bs| - 1].consumed[f] == bs[0].consumed[f] + SumOfActions(bs[1..], f)
    ensures bs[|bs| - 1].consumed[f] <= HardMaximum(f)
  {
    TailIsChain(bs);
    assert FieldValid(bs[|bs| - 1], f);
    if |bs| > 1 {
      var front := bs[..|bs| - 1];
      ChainConserves(front, f);
      assert bs[1..][..|bs[1..]| - 1] == front[1..];
      assert Progress(bs[|bs| - 2], bs[|bs| - 1]);
    }
  }

  /** Consumption never falls along an accepted chain. */
  lemma {:induction false} ChainIsMonotone(bs: seq<Budget>, i: nat, j: nat, f: Field)
    requires Chain(bs) && i <= j < |bs|
    ensures bs[i].consumed[f] <= bs[j].consumed[f]
    decreases j
  {
    if i < j {
      ChainIsMonotone(bs, i, j - 1, f);
      assert Progress(bs[j - 1], bs[j]);
      assert FieldValid(bs[j], f);
    }
  }

  /** Advances form an accepted chain. */
  lemma {:induction false} AdvancesFormChain(first: Budget, fields: seq<Field>)
    requires Valid(first) && AdvanceAll(first, fields).Some?
    ensures var bs := AdvanceAll(first, fields).value;
            |bs| == |fields| + 1 && bs[0] == first && Chain(bs)
    decreases |fields|
  {
    if fields != [] {
      AdvanceIsProgress(first, fields[0]);
      var next := Advance(first, fields[0]).value;
      AdvancesFormChain(next, fields[1..]);
      PrependToChain(first, AdvanceAll(next, fields[1..]).value);
    }
  }

  /** There are never more advances than units left at the start. */
  lemma {:induction false} AdvancesAreBounded(first: Budget, fields: seq<Field>)
    requires Valid(first) && AdvanceAll(first, fields).Some?
    ensures |fields| <= TotalRemaining(first)
    decreases |fields|
  {
    if fields == [] {
      LeftIsNonnegative(first, 0);
    } else {
      TotalFallsByOne(first, fields[0]);
      AdvancesAreBounded(Advance(first, fields[0]).value, fields[1..]);
    }
  }

  lemma PrependToChain(first: Budget, rest: seq<Budget>)
    requires Chain(rest) && rest != [] && Progress(first, rest[0])
    ensures Chain([first] + rest)
  {
    var bs := [first] + rest;
    forall i | 0 < i < |bs| ensures Progress(bs[i - 1], bs[i]) {
      if i > 1 { assert Progress(rest[i - 2], rest[i - 1]); }
    }
  }
}
