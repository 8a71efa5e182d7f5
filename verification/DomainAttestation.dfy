/**
 The attestation of a domain execution by comparing the ledger before and after
 it: the claimed events must be exactly the new ones, or the ledger must not have
 changed at all and the claimed events be old ones, or nothing may have been
 written and the artifacts be the approved ones.
 */
module DomainAttestation {
  import opened CanonicalJson

  datatype Event = Event(id: string, eventType: string, payload: Value)

  datatype DomainResult = DomainResult(eventIds: seq<string>, artifactHashes: seq<string>, changedProjections: seq<string>)

  datatype Mode = NewLedgerEvents | IdempotentExistingEvents | NonledgerProjectionArtifacts

  const PROJECTION_ENTRY := 7
  const LEGACY_ENTRY := 10
  const PROJECTION_NAME := "workspace-projection-artifacts"

  /** approvedHashes: the artifacts of the approved preview; legacyAccepted: the checks of the legacy proposal events. */
  datatype Invocation = Invocation(approvedHashes: seq<string>, legacyAccepted: (seq<Event>, seq<Event>) -> bool)

  function ExpectedType(ordinal: int): Option<string> {
    match ordinal
    case 2 => Some("prr.request.sent")
    case 3 => Some("prr.followup.sent")
    case 4 => Some("assertion.accepted")
    case 5 => Some("export.generated")
    case 6 => Some("report.generated")
    case 9 => Some("legacy.ontology.staging.approved")
    case 10 => Some("assertion.proposed")
    case _ => None
  }

  predicate HasId(events: seq<Event>, id: string) {
    exists e :: e in events && e.id == id
  }

  function Ids(events: seq<Event>): (r: seq<string>)
    ensures |r| == |events| && forall i | 0 <= i < |r| :: r[i] == events[i].id
  {
    seq(|events|, i requires 0 <= i < |events| => events[i].id)
  }

  /** The events of the later reading whose identifiers the earlier one does not have. */
  function Added(before: seq<Event>, after: seq<Event>): seq<Event> {
    if after == [] then []
    else Added(before, after[..|after| - 1]) + if HasId(before, after[|after| - 1].id) then [] else [after[|after| - 1]]
  }

  function FindById(events: seq<Event>, id: string): (r: Option<Event>)
    ensures r.Some? <==> HasId(events, id)
    ensures r.Some? ==> r.value in events && r.value.id == id
  {
    if events == [] then None
    else if events[0].id == id then Some(events[0])
    else
      assert events == [events[0]] + events[1..];
      FindById(events[1..], id)
  }

  /** The events found for the claimed identifiers. */
  function Selected(events: seq<Event>, ids: seq<string>): seq<Event>
    requires forall id | id in ids :: HasId(events, id)
  {
    seq(|ids|, i requires 0 <= i < |ids| => FindById(events, ids[i]).value)
  }

  /** residentUniqueStrings: no empty text and no repetition. */
  predicate UniqueTexts(s: seq<string>) {
    "" !in s && forall i, j | 0 <= i < j < |s| :: s[i] != s[j]
  }

  /** The claimed events are there, of the expected type, as many as the catalog entry allows. */
  predicate EvidenceInOrder(ordinal: int, v: Invocation, eventIds: seq<string>, after: seq<Event>) {
    && eventIds != [] && (ordinal == LEGACY_ENTRY || |eventIds| == 1)
    && (forall id | id in eventIds :: HasId(after, id))
    && (ExpectedType(ordinal).Some? ==> forall e | e in Selected(after, eventIds) :: e.eventType == ExpectedType(ordinal).value)
    && (ordinal == LEGACY_ENTRY ==> v.legacyAccepted(Selected(after, eventIds), after))
  }

  /** attestResidentDomainResult: the evidence mode, or nothing where it throws. */
  function Attest(ordinal: int, v: Invocation, result: DomainResult, before: seq<Event>, after: seq<Event>): Option<Mode> {
    var added := Added(before, after);
    if ordinal == 0 || ordinal == 1 || ordinal == 8 then None
    else if !UniqueTexts(result.eventIds) || !UniqueTexts(result.artifactHashes) then None
    else if ordinal == PROJECTION_ENTRY then
      if result.eventIds != [] || added != [] || result.artifactHashes == [] || result.artifactHashes != v.approvedHashes
         || result.changedProjections != [PROJECTION_NAME]
      then None else Some(NonledgerProjectionArtifacts)
    else if !EvidenceInOrder(ordinal, v, result.eventIds, after) then None
    else if Ids(added) == result.eventIds then Some(NewLedgerEvents)
    else if added == [] && forall id | id in result.eventIds :: HasId(before, id) then Some(IdempotentExistingEvents)
    else None
  }

  // ---------- The difference is the suffix ----------

  predicate UniqueIds(events: seq<Event>) {
    forall i, j | 0 <= i < j < |events| :: events[i].id != events[j].id
  }

  lemma {:induction false} NothingAdded(before: seq<Event>, after: seq<Event>)
    requires forall e | e in after :: HasId(before, e.id)
    ensures Added(before, after) == []
  {
    if after != [] { NothingAdded(before, after[..|after| - 1]); }
  }

  /** An append-only ledger with unique identifiers: what was added is exactly the suffix, in order. */
  lemma {:induction false} AddedIsSuffix(before: seq<Event>, suffix: seq<Event>)
    requires UniqueIds(before + suffix)
    ensures Added(before, before + suffix) == suffix
  {
    var after := before + suffix;
    if suffix == [] {
      assert after == before;
      NothingAdded(before, before);
    } else {
      var front, last := suffix[..|suffix| - 1], suffix[|suffix| - 1];
      assert after[..|after| - 1] == before + front;
      AddedIsSuffix(before, front);
      forall i | 0 <= i < |before| ensures before[i].id != last.id {
        assert after[i] == before[i] && after[|after| - 1] == last;
      }
    }
  }

  // ---------- What each mode means ----------

  predicate Admissible(ordinal: int, result: DomainResult) {
    ordinal != 0 && ordinal != 1 && ordinal != 8 && UniqueTexts(result.eventIds) && UniqueTexts(result.artifactHashes)
  }

  /**
   The evidence mode, exactly, when the ledger was only appended to: new events
   when the claimed identifiers are those of the suffix in order; an idempotent
   replay when the suffix is empty and the claimed events are old; projection
   artifacts when nothing was written and the approved artifacts came out.
   */
  lemma ModeExactly(ordinal: int, v: Invocation, result: DomainResult, before: seq<Event>, suffix: seq<Event>)
    requires UniqueIds(before + suffix)
    ensures var mode := Attest(ordinal, v, result, before, before + suffix);
            && (mode == Some(NewLedgerEvents) <==>
                  && Admissible(ordinal, result) && ordinal != PROJECTION_ENTRY
                  && EvidenceInOrder(ordinal, v, result.eventIds, before + suffix)
                  && result.eventIds == Ids(suffix))
            && (mode == Some(IdempotentExistingEvents) <==>
                  && Admissible(ordinal, result) && ordinal != PROJECTION_ENTRY
                  && EvidenceInOrder(ordinal, v, result.eventIds, before + suffix)
                  && suffix == [] && forall id | id in result.eventIds :: HasId(before, id))
            && (mode == Some(NonledgerProjectionArtifacts) <==>
                  && Admissible(ordinal, result) && ordinal == PROJECTION_ENTRY
                  && suffix == [] && result.eventIds == []
                  && result.artifactHashes != [] && result.artifactHashes == v.approvedHashes
                  && result.changedProjections == [PROJECTION_NAME])
  {
    AddedIsSuffix(before, suffix);
    assert Ids([]) == [];
  }

  /** One event that the result does not claim, whoever appended it meanwhile, makes every mode fail. */
  lemma ForeignAppendFails(ordinal: int, v: Invocation, result: DomainResult, before: seq<Event>, suffix: seq<Event>, foreign: Event)
    requires UniqueIds(before + suffix)
    requires foreign in suffix && foreign.id !in result.eventIds
    ensures Attest(ordinal, v, result, before, before + suffix) == None
  {
    ModeExactly(ordinal, v, result, before, suffix);
    var i :| 0 <= i < |suffix| && suffix[i] == foreign;
    assert Ids(suffix)[i] == foreign.id;
  }

  // ---------- Interleaved appends ----------

  /** The events of an execution among those appended while it ran; mine marks its own. */
  function Own(suffix: seq<Event>, mine: seq<bool>): seq<Event>
    requires |mine| == |suffix|
  {
    if suffix == [] then [] else (if mine[0] then [suffix[0]] else []) + Own(suffix[1..], mine[1..])
  }

  lemma {:induction false} OwnIsAllIff(suffix: seq<Event>, mine: seq<bool>)
    requires |mine| == |suffix|
    ensures |Own(suffix, mine)| <= |suffix|
    ensures |Own(suffix, mine)| == |suffix| <==> forall i | 0 <= i < |mine| :: mine[i]
    ensures (forall i | 0 <= i < |mine| :: mine[i]) ==> Own(suffix, mine) == suffix
  {
    if suffix != [] {
      OwnIsAllIff(suffix[1..], mine[1..]);
      assert mine == [mine[0]] + mine[1..];
    }
  }

  /**
   An execution that claims exactly its own events, whatever others appended in
   between, is attested as new exactly when nobody else appended anything.
   */
  lemma HonestClaimHolds(ordinal: int, v: Invocation, result: DomainResult, before: seq<Event>, suffix: seq<Event>, mine: seq<bool>)
    requires UniqueIds(before + suffix) && |mine| == |suffix|
    requires result.eventIds == Ids(Own(suffix, mine))
    requires Admissible(ordinal, result) && ordinal != PROJECTION_ENTRY && EvidenceInOrder(ordinal, v, result.eventIds, before + suffix)
    ensures Attest(ordinal, v, result, before, before + suffix) ==
            if forall i | 0 <= i < |mine| :: mine[i] then Some(NewLedgerEvents) else None
  {
    ModeExactly(ordinal, v, result, before, suffix);
    OwnIsAllIff(suffix, mine);
    assert |result.eventIds| == |Own(suffix, mine)|;
  }

  // ---------- What attested evidence is ----------

  /** The event is of the family that the catalog entry produces; the entries without one accept any. */
  predicate OfFamily(ordinal: int, e: Event) {
    && (ordinal == 2 ==> e.eventType == "prr.request.sent")
    && (ordinal == 3 ==> e.eventType == "prr.followup.sent")
    && (ordinal == 4 ==> e.eventType == "assertion.accepted")
    && (ordinal == 5 ==> e.eventType == "export.generated")
    && (ordinal == 6 ==> e.eventType == "report.generated")
    && (ordinal == 9 ==> e.eventType == "legacy.ontology.staging.approved")
    && (ordinal == 10 ==> e.eventType == "assertion.proposed")
  }

  lemma FamilyIsExpected(ordinal: int, e: Event)
    ensures OfFamily(ordinal, e) <==> (ExpectedType(ordinal).Some? ==> e.eventType == ExpectedType(ordinal).value)
  {
  }

  /** Texts that are present and differ from one another. */
  predicate PresentAndDistinct(s: seq<string>) {
    forall i | 0 <= i < |s| :: |s[i]| > 0 && forall j | 0 <= j < i :: s[j] != s[i]
  }

  lemma UniqueIsPresentAndDistinct(s: seq<string>)
    ensures UniqueTexts(s) <==> PresentAndDistinct(s)
  {
  }

  /** The evidence: one event of the entry's family, or for the legacy entry any number that its own checks accept. */
  predicate Evidence(ordinal: int, v: Invocation, evidence: seq<Event>, ledger: seq<Event>) {
    && |evidence| > 0 && (ordinal != 10 ==> |evidence| == 1)
    && (forall k | 0 <= k < |evidence| :: evidence[k] in ledger && OfFamily(ordinal, evidence[k]))
    && (ordinal == 10 ==> v.legacyAccepted(evidence, ledger))
  }

  /** The claim names exactly these events, in order. */
  predicate Names(claimed: seq<string>, evidence: seq<Event>) {
    |claimed| == |evidence| && forall k | 0 <= k < |claimed| :: claimed[k] == evidence[k].id
  }

  predicate Producing(ordinal: int, result: DomainResult) {
    && ordinal != 0 && ordinal != 1 && ordinal != 7 && ordinal != 8
    && PresentAndDistinct(result.eventIds) && PresentAndDistinct(result.artifactHashes)
  }

  lemma {:induction false} FoundById(events: seq<Event>, e: Event)
    requires UniqueIds(events) && e in events
    ensures FindById(events, e.id) == Some(e)
  {
    if events[0] != e {
      assert events == [events[0]] + events[1..];
      FoundById(events[1..], e);
      var k :| 0 <= k < |events| && events[k] == e;
      assert events[0].id != events[k].id;
    }
  }

  lemma SelectedAreNamed(events: seq<Event>, claimed: seq<string>, evidence: seq<Event>)
    requires UniqueIds(events) && Names(claimed, evidence) && forall e | e in evidence :: e in events
    ensures forall id | id in claimed :: HasId(events, id)
    ensures Selected(events, claimed) == evidence
  {
    forall k | 0 <= k < |claimed| ensures HasId(events, claimed[k]) && FindById(events, claimed[k]) == Some(evidence[k]) {
      assert evidence[k] in events;
      FoundById(events, evidence[k]);
    }
  }

  lemma EvidenceInOrderExactly(ordinal: int, v: Invocation, claimed: seq<string>, evidence: seq<Event>, ledger: seq<Event>)
    requires UniqueIds(ledger) && Names(claimed, evidence) && forall e | e in evidence :: e in ledger
    ensures EvidenceInOrder(ordinal, v, claimed, ledger) <==> Evidence(ordinal, v, evidence, ledger)
  {
    SelectedAreNamed(ledger, claimed, evidence);
    forall e ensures OfFamily(ordinal, e) <==> (ExpectedType(ordinal).Some? ==> e.eventType == ExpectedType(ordinal).value) {
      FamilyIsExpected(ordinal, e);
    }
  }

  /**
   Attested as new, exactly: the claim names the events that were appended
   meanwhile, in order, and they are the evidence the catalog entry asks for.
   */
  lemma NewEvidenceExactly(ordinal: int, v: Invocation, result: DomainResult, before: seq<Event>, suffix: seq<Event>)
    requires UniqueIds(before + suffix)
    ensures Attest(ordinal, v, result, before, before + suffix) == Some(NewLedgerEvents) <==>
            Producing(ordinal, result) && Names(result.eventIds, suffix) && Evidence(ordinal, v, suffix, before + suffix)
  {
    ModeExactly(ordinal, v, result, before, suffix);
    UniqueIsPresentAndDistinct(result.eventIds);
    UniqueIsPresentAndDistinct(result.artifactHashes);
    if Names(result.eventIds, suffix) {
      assert result.eventIds == Ids(suffix);
      EvidenceInOrderExactly(ordinal, v, result.eventIds, suffix, before + suffix);
    }
  }

  /**
   Attested as an idempotent replay, exactly: nothing was appended meanwhile, and
   the claim names events that were there before and are that evidence.
   */
  lemma OldEvidenceExactly(ordinal: int, v: Invocation, result: DomainResult, before: seq<Event>, suffix: seq<Event>)
    requires UniqueIds(before + suffix)
    ensures Attest(ordinal, v, result, before, before + suffix) == Some(IdempotentExistingEvents) <==>
            Producing(ordinal, result) && suffix == []
            && exists evidence :: Names(result.eventIds, evidence) && Evidence(ordinal, v, evidence, before)
  {
    ModeExactly(ordinal, v, result, before, suffix);
    UniqueIsPresentAndDistinct(result.eventIds);
    UniqueIsPresentAndDistinct(result.artifactHashes);
    if suffix == [] {
      assert before + suffix == before;
      if forall id | id in result.eventIds :: HasId(before, id) {
        var evidence := Selected(before, result.eventIds);
        assert Names(result.eventIds, evidence);
        EvidenceInOrderExactly(ordinal, v, result.eventIds, evidence, before);
      }
      if evidence :| Names(result.eventIds, evidence) && Evidence(ordinal, v, evidence, before) {
        EvidenceInOrderExactly(ordinal, v, result.eventIds, evidence, before);
        SelectedAreNamed(before, result.eventIds, evidence);
      }
    }
  }

  /** Attested as projection artifacts, exactly: entry seven, nothing written, and the approved artifacts came out of the one projection. */
  lemma ArtifactEvidenceExactly(ordinal: int, v: Invocation, result: DomainResult, before: seq<Event>, suffix: seq<Event>)
    requires UniqueIds(before + suffix)
    ensures Attest(ordinal, v, result, before, before + suffix) == Some(NonledgerProjectionArtifacts) <==>
            && ordinal == 7 && suffix == [] && result.eventIds == []
            && |result.artifactHashes| > 0 && PresentAndDistinct(result.artifactHashes) && result.artifactHashes == v.approvedHashes
            && result.changedProjections == ["workspace-projection-artifacts"]
  {
    ModeExactly(ordinal, v, result, before, suffix);
    UniqueIsPresentAndDistinct(result.eventIds);
    UniqueIsPresentAndDistinct(result.artifactHashes);
  }
}
