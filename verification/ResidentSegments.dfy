/**
 The segments of one resident loop stream: each result closes one, a resumable
 result opens the next, and an unfinished stream ends with an open segment.
 */
module ResidentSegments {
  import opened CanonicalJson
  import opened ResidentRecords

  datatype SegmentOutcome = Open | ResumableSegment | Terminal

  datatype Segment = Segment(
    ordinal: nat, firstEventId: string, suspensionEventId: Option<string>, resultEventId: Option<string>, outcome: SegmentOutcome)

  predicate IsResult(e: Event) { e.payload.ResultRecorded? }

  predicate IsResumable(e: Event) {
    && IsResult(e)
    && (e.payload.result.body.Resumable? || (e.payload.result.body.OtherResult? && e.payload.result.body.outcome == "resumable"))
  }

  /** The results of a stream, in order. */
  function Results(events: seq<Event>): (r: seq<Event>)
    ensures forall e | e in r :: IsResult(e) && e in events
  {
    if events == [] then [] else Results(events[..|events| - 1]) + if IsResult(events[|events| - 1]) then [events[|events| - 1]] else []
  }

  /** Where the segment under way after these events began: after the last resumable result, or at the very front. */
  function StartOf(front: string, events: seq<Event>): string {
    if events == [] then front
    else if IsResumable(events[|events| - 1]) then events[|events| - 1].id
    else StartOf(front, events[..|events| - 1])
  }

  /** The last suspension since the segment began. */
  function SuspensionOf(events: seq<Event>): Option<string> {
    if events == [] then None
    else
      var last := events[|events| - 1];
      if last.payload.LoopSuspended? then Some(last.id)
      else if IsResumable(last) then None
      else SuspensionOf(events[..|events| - 1])
  }

  /** The segment that the result at position i closes, as the k-th of its stream. */
  function Closed(events: seq<Event>, i: nat, k: nat): Segment
    requires i < |events|
  {
    Segment(k + 1, StartOf(events[0].id, events[..i]), SuspensionOf(events[..i]), Some(events[i].id),
            if IsResumable(events[i]) then ResumableSegment else Terminal)
  }

  /** The stream has no result yet, or its last one is resumable. */
  predicate Unfinished(events: seq<Event>) {
    Results(events) == [] || IsResumable(Results(events)[|Results(events)| - 1])
  }

  predicate ClosesIn(events: seq<Event>, segment: Segment, k: nat) {
    exists i :: 0 <= i < |events| && IsResult(events[i]) && |Results(events[..i])| == k && segment == Closed(events, i, k)
  }

  /** One segment for each result, in order. */
  predicate AllClosed(events: seq<Event>, segments: seq<Segment>) {
    forall k | 0 <= k < |segments| :: ClosesIn(events, segments[k], k)
  }

  lemma CloseOne(events: seq<Event>, segments: seq<Segment>, i: nat)
    requires AllClosed(events, segments) && i < |events| && IsResult(events[i]) && |Results(events[..i])| == |segments|
    ensures AllClosed(events, segments + [Closed(events, i, |segments|)])
  {
    assert ClosesIn(events, Closed(events, i, |segments|), |segments|);
  }

  /** What one more event does to the bookkeeping. */
  lemma OneEvent(front: string, events: seq<Event>, i: nat)
    requires i < |events|
    ensures StartOf(front, events[..i + 1]) == if IsResumable(events[i]) then events[i].id else StartOf(front, events[..i])
    ensures SuspensionOf(events[..i + 1]) ==
            if events[i].payload.LoopSuspended? then Some(events[i].id)
            else if IsResumable(events[i]) then None else SuspensionOf(events[..i])
    ensures Results(events[..i + 1]) == Results(events[..i]) + if IsResult(events[i]) then [events[i]] else []
  {
    assert events[..i + 1][..i] == events[..i];
  }

  /** The last segment is resumable exactly when the last result is. */
  predicate LastAgrees(segments: seq<Segment>, results: seq<Event>) {
    && |segments| == |results|
    && (segments != [] ==> (segments[|segments| - 1].outcome == ResumableSegment <==> IsResumable(results[|results| - 1])))
  }

  /** The segments: one closed by each result, then an open one if the stream is unfinished. */
  predicate AreSegments(events: seq<Event>, segments: seq<Segment>) {
    var n := |Results(events)|;
    && |segments| == n + (if Unfinished(events) then 1 else 0)
    && AllClosed(events, segments[..n])
    && (events != [] && Unfinished(events) ==>
          segments[n] == Segment(n + 1, StartOf(events[0].id, events), SuspensionOf(events), None, Open))
  }

  /** What the loop has in hand after the first i events. */
  predicate InHand(events: seq<Event>, i: nat, firstEventId: string, suspensionEventId: Option<string>, segments: seq<Segment>)
    requires i <= |events| && events != []
  {
    && firstEventId == StartOf(events[0].id, events[..i])
    && suspensionEventId == SuspensionOf(events[..i])
    && LastAgrees(segments, Results(events[..i]))
  }

  lemma OpenEventKeeps(events: seq<Event>, i: nat, first: string, suspension: Option<string>, segments: seq<Segment>)
    requires i < |events| && !IsResult(events[i]) && InHand(events, i, first, suspension, segments)
    ensures InHand(events, i + 1, first, if events[i].payload.LoopSuspended? then Some(events[i].id) else suspension, segments)
  {
    OneEvent(events[0].id, events, i);
  }

  lemma ResultKeeps(events: seq<Event>, i: nat, first: string, suspension: Option<string>, segments: seq<Segment>)
    requires i < |events| && IsResult(events[i]) && InHand(events, i, first, suspension, segments)
    ensures var resumable := IsResumable(events[i]);
            var closed := Segment(|segments| + 1, first, suspension, Some(events[i].id), if resumable then ResumableSegment else Terminal);
            && InHand(events, i + 1, if resumable then events[i].id else first, if resumable then None else suspension, segments + [closed])
            && closed == Closed(events, i, |segments|) && |Results(events[..i])| == |segments|
  {
    OneEvent(events[0].id, events, i);
  }

  lemma NothingInHand(events: seq<Event>)
    requires events != []
    ensures InHand(events, 0, events[0].id, None, [])
  {
    assert events[..0] == [];
  }

  /** The loop: results close segments, resumable ones begin the next. */
  method CloseSegments(events: seq<Event>) returns (firstEventId: string, suspensionEventId: Option<string>, segments: seq<Segment>)
    requires events != []
    ensures InHand(events, |events|, firstEventId, suspensionEventId, segments) && AllClosed(events, segments)
  {
    NothingInHand(events);
    firstEventId, suspensionEventId, segments := events[0].id, None, [];
    var i := 0;
    while i < |events|
      invariant 0 <= i <= |events| && InHand(events, i, firstEventId, suspensionEventId, segments)
      invariant AllClosed(events, segments)
    {
      var event := events[i];
      if event.payload.ResultRecorded? {
        ResultKeeps(events, i, firstEventId, suspensionEventId, segments);
        CloseOne(events, segments, i);
        var outcome := if IsResumable(event) then ResumableSegment else Terminal;
        segments := segments + [Segment(|segments| + 1, firstEventId, suspensionEventId, Some(event.id), outcome)];
        if outcome == ResumableSegment { firstEventId, suspensionEventId := event.id, None; }
      } else {
        OpenEventKeeps(events, i, firstEventId, suspensionEventId, segments);
        if event.payload.LoopSuspended? { suspensionEventId := Some(event.id); }
      }
      i := i + 1;
    }
  }

  method BuildSegments(events: seq<Event>) returns (segments: seq<Segment>)
    ensures events == [] ==> segments == []
    ensures events != [] ==> AreSegments(events, segments)
  {
    if |events| == 0 { return []; }
    var firstEventId, suspensionEventId, closed := CloseSegments(events);
    SegmentsComplete(events, firstEventId, suspensionEventId, closed);
    if |closed| == 0 || closed[|closed| - 1].outcome == ResumableSegment {
      return closed + [Segment(|closed| + 1, firstEventId, suspensionEventId, None, Open)];
    }
    return closed;
  }

  lemma SegmentsComplete(events: seq<Event>, first: string, suspension: Option<string>, segments: seq<Segment>)
    requires events != [] && InHand(events, |events|, first, suspension, segments) && AllClosed(events, segments)
    ensures AreSegments(events,
              if |segments| == 0 || segments[|segments| - 1].outcome == ResumableSegment
              then segments + [Segment(|segments| + 1, first, suspension, None, Open)] else segments)
  {
    assert events[..|events|] == events;
    assert segments[..|segments|] == segments;
    var open := Segment(|segments| + 1, first, suspension, None, Open);
    assert (segments + [open])[..|segments|] == segments && (segments + [open])[|segments|] == open;
  }

  lemma {:induction false} ResultsGrow(events: seq<Event>, i: nat, j: nat)
    requires i < j <= |events| && IsResult(events[i])
    ensures |Results(events[..i])| < |Results(events[..j])|
    decreases j
  {
    assert events[..j][..j - 1] == events[..j - 1];
    if i < j - 1 { ResultsGrow(events, i, j - 1); }
  }

  lemma {:induction false} StartStays(front: string, events: seq<Event>, i: nat, j: nat)
    requires i <= j <= |events| && forall k | i <= k < j :: !IsResumable(events[k])
    ensures StartOf(front, events[..j]) == StartOf(front, events[..i])
    decreases j
  {
    if i < j {
      assert events[..j][..j - 1] == events[..j - 1];
      StartStays(front, events, i, j - 1);
    }
  }

  /** Neighbouring segments join: the one after a resumable result begins with that very result. */
  lemma SegmentsJoin(events: seq<Event>, i: nat, j: nat, k: nat)
    requires i < j < |events| && IsResumable(events[i]) && IsResult(events[j])
    requires |Results(events[..i])| == k && |Results(events[..j])| == k + 1
    ensures Closed(events, j, k + 1).firstEventId == events[i].id
    ensures Closed(events, i, k).resultEventId == Some(events[i].id)
  {
    forall m | i < m < j ensures !IsResumable(events[m]) {
      if IsResult(events[m]) {
        ResultsGrow(events, i, m);
        ResultsGrow(events, m, j);
      }
    }
    StartStays(events[0].id, events, i + 1, j);
    assert events[..i + 1][|events[..i + 1]| - 1] == events[i];
  }

  // ---------- Segments by position ----------

  /** The event is a result that leaves the loop to be resumed. */
  predicate LeavesResumable(e: Event) {
    && e.payload.ResultRecorded?
    && match e.payload.result.body
       case HandoffRecorded(_, _) => false
       case Resumable(_, _) => true
       case OtherResult(outcome, _, _) => outcome == "resumable"
  }

  /** The segment under way before position i began with this event: the last resumable result, or the first event. */
  predicate BeganWith(events: seq<Event>, i: nat, id: string)
    requires i <= |events| && events != []
  {
    || (exists j :: 0 <= j < i && events[j].id == id && LeavesResumable(events[j]) && forall m | j < m < i :: !LeavesResumable(events[m]))
    || (id == events[0].id && forall m | 0 <= m < i :: !LeavesResumable(events[m]))
  }

  /** It was suspended by this event, the last of its suspensions, or not at all. */
  predicate SuspendedBy(events: seq<Event>, i: nat, id: Option<string>)
    requires i <= |events|
  {
    if id.Some? then
      exists p :: 0 <= p < i && events[p].payload.LoopSuspended? && events[p].id == id.value
                  && forall m | p < m < i :: !events[m].payload.LoopSuspended? && !LeavesResumable(events[m])
    else forall p | 0 <= p < i && events[p].payload.LoopSuspended? :: exists m :: p < m < i && LeavesResumable(events[m])
  }

  lemma StartByPosition(events: seq<Event>, i: nat)
    requires i < |events| && BeganWith(events, i, StartOf(events[0].id, events[..i]))
    ensures BeganWith(events, i + 1, StartOf(events[0].id, events[..i + 1]))
  {
    OneEvent(events[0].id, events, i);
    StartMovesOn(events, i, StartOf(events[0].id, events[..i]));
  }

  lemma SuspensionByPosition(events: seq<Event>, i: nat)
    requires i < |events| && SuspendedBy(events, i, SuspensionOf(events[..i]))
    ensures SuspendedBy(events, i + 1, SuspensionOf(events[..i + 1]))
  {
    OneEvent("", events, i);
    SuspensionMovesOn(events, i, SuspensionOf(events[..i]));
  }

  lemma {:induction false} HandledByPosition(events: seq<Event>, i: nat)
    requires i <= |events| && events != []
    ensures BeganWith(events, i, StartOf(events[0].id, events[..i]))
    ensures SuspendedBy(events, i, SuspensionOf(events[..i]))
  {
    if i == 0 {
      assert events[..0] == [];
    } else {
      HandledByPosition(events, i - 1);
      StartByPosition(events, i - 1);
      SuspensionByPosition(events, i - 1);
    }
  }

  lemma StartMovesOn(events: seq<Event>, i: nat, id: string)
    requires i < |events| && BeganWith(events, i, id)
    ensures BeganWith(events, i + 1, if IsResumable(events[i]) then events[i].id else id)
  {
    assert IsResumable(events[i]) <==> LeavesResumable(events[i]);
    if !IsResumable(events[i]) && !(forall m | 0 <= m < i :: !LeavesResumable(events[m])) {
      var j :| 0 <= j < i && events[j].id == id && LeavesResumable(events[j]) && forall m | j < m < i :: !LeavesResumable(events[m]);
      assert forall m | j < m < i + 1 :: !LeavesResumable(events[m]);
    }
  }

  lemma SuspensionMovesOn(events: seq<Event>, i: nat, id: Option<string>)
    requires i < |events| && SuspendedBy(events, i, id)
    ensures SuspendedBy(events, i + 1,
                        if events[i].payload.LoopSuspended? then Some(events[i].id) else if IsResumable(events[i]) then None else id)
  {
    assert IsResumable(events[i]) <==> LeavesResumable(events[i]);
    if !events[i].payload.LoopSuspended? && !IsResumable(events[i]) && id.Some? {
      var p :| 0 <= p < i && events[p].payload.LoopSuspended? && events[p].id == id.value
               && forall m | p < m < i :: !events[m].payload.LoopSuspended? && !LeavesResumable(events[m]);
      assert forall m | p < m < i + 1 :: !events[m].payload.LoopSuspended? && !LeavesResumable(events[m]);
    }
    if !events[i].payload.LoopSuspended? && id.None? {
      forall p | 0 <= p < i + 1 && events[p].payload.LoopSuspended? && !IsResumable(events[i])
        ensures exists m :: p < m < i + 1 && LeavesResumable(events[m])
      {
        var m :| p < m < i && LeavesResumable(events[m]);
      }
    }
  }

  /** The segment that the result at position i closes, field by field. */
  predicate ClosedAt(events: seq<Event>, segment: Segment, i: nat)
    requires i < |events|
  {
    && events[i].payload.ResultRecorded? && segment.resultEventId == Some(events[i].id)
    && BeganWith(events, i, segment.firstEventId) && SuspendedBy(events, i, segment.suspensionEventId)
    && segment.outcome == (if LeavesResumable(events[i]) then ResumableSegment else Terminal)
  }

  /** The positions of the results, rising. */
  predicate ResultPositions(events: seq<Event>, at: seq<nat>) {
    && (forall k | 0 <= k < |at| :: at[k] < |events| && events[at[k]].payload.ResultRecorded?)
    && (forall k, l | 0 <= k < l < |at| :: at[k] < at[l])
    && (forall i | 0 <= i < |events| && events[i].payload.ResultRecorded? :: i in at)
  }

  function ResultsAt(events: seq<Event>, n: nat): (at: seq<nat>)
    requires n <= |events|
    ensures forall i | i in at :: i < n && IsResult(events[i])
    ensures forall i | 0 <= i < n && IsResult(events[i]) :: i in at
  {
    if n == 0 then [] else ResultsAt(events, n - 1) + if IsResult(events[n - 1]) then [n - 1] else []
  }

  lemma {:induction false} PositionsRise(events: seq<Event>, n: nat, k: nat, l: nat)
    requires n <= |events| && k < l < |ResultsAt(events, n)|
    ensures ResultsAt(events, n)[k] < ResultsAt(events, n)[l]
  {
    var front := ResultsAt(events, n - 1);
    if l < |front| {
      PositionsRise(events, n - 1, k, l);
    } else {
      assert front[k] in front;
    }
  }

  lemma OneResultMore(events: seq<Event>, n: nat)
    requires n < |events|
    ensures |Results(events[..n + 1])| == |Results(events[..n])| + if IsResult(events[n]) then 1 else 0
  {
    OneEvent("", events, n);
  }

  lemma {:induction false} AsManyPositions(events: seq<Event>, n: nat)
    requires n <= |events|
    ensures |ResultsAt(events, n)| == |Results(events[..n])|
  {
    if n > 0 {
      AsManyPositions(events, n - 1);
      OneResultMore(events, n - 1);
    }
  }

  /** The k-th position has k results before it. */
  lemma {:induction false} PositionsBefore(events: seq<Event>, n: nat, k: nat)
    requires n <= |events| && k < |ResultsAt(events, n)|
    ensures ResultsAt(events, n)[k] < n && |ResultsAt(events, ResultsAt(events, n)[k])| == k
  {
    if k < |ResultsAt(events, n - 1)| { PositionsBefore(events, n - 1, k); }
  }

  lemma ResultPositionsAt(events: seq<Event>)
    ensures var at := ResultsAt(events, |events|);
            && ResultPositions(events, at) && |at| == |Results(events)|
            && forall k | 0 <= k < |at| :: at[k] < |events| && |Results(events[..at[k]])| == k
  {
    var at := ResultsAt(events, |events|);
    assert events[..|events|] == events;
    AsManyPositions(events, |events|);
    forall k, l | 0 <= k < l < |at| ensures at[k] < at[l] { PositionsRise(events, |events|, k, l); }
    forall k | 0 <= k < |at| ensures at[k] < |events| && |Results(events[..at[k]])| == k {
      PositionsBefore(events, |events|, k);
      AsManyPositions(events, at[k]);
    }
    forall k | 0 <= k < |at| ensures at[k] < |events| && events[at[k]].payload.ResultRecorded? { assert at[k] in at; }
  }

  /** Behind the closed segments one is open exactly while there is no result, or the last one leaves the loop to be resumed. */
  predicate OpenBehind(events: seq<Event>, segments: seq<Segment>, at: seq<nat>)
    requires events != [] && forall k | 0 <= k < |at| :: at[k] < |events|
  {
    && (|segments| > |at| <==> at == [] || LeavesResumable(events[at[|at| - 1]]))
    && (|segments| > |at| ==>
          && |segments| == |at| + 1 && segments[|at|].outcome == Open && segments[|at|].ordinal == |at| + 1
          && segments[|at|].resultEventId == None
          && BeganWith(events, |events|, segments[|at|].firstEventId) && SuspendedBy(events, |events|, segments[|at|].suspensionEventId))
  }

  lemma OpenByPosition(events: seq<Event>, segments: seq<Segment>, at: seq<nat>)
    requires events != [] && forall k | 0 <= k < |at| :: at[k] < |events|
    requires |segments| == |at| + (if Unfinished(events) then 1 else 0)
    requires Unfinished(events) ==> segments[|at|] == Segment(|at| + 1, StartOf(events[0].id, events), SuspensionOf(events), None, Open)
    requires Unfinished(events) <==> at == [] || LeavesResumable(events[at[|at| - 1]])
    ensures OpenBehind(events, segments, at)
  {
    assert events[..|events|] == events;
    HandledByPosition(events, |events|);
  }

  /**
   The segments of a stream, by position: the k-th is closed by the k-th result,
   began behind the resumable result before it and was suspended by the last
   suspension since; behind them one may be open.
   */
  lemma SegmentsByPosition(events: seq<Event>, segments: seq<Segment>) returns (at: seq<nat>)
    requires events != [] && AreSegments(events, segments)
    ensures at == ResultsAt(events, |events|) && ResultPositions(events, at) && |at| <= |segments|
    ensures forall k | 0 <= k < |at| :: ClosedAt(events, segments[k], at[k]) && segments[k].ordinal == k + 1
    ensures OpenBehind(events, segments, at)
  {
    at := ResultsAt(events, |events|);
    ResultPositionsAt(events);
    ClosedOnes(events, segments, at);
    LastResultAt(events, at);
    OpenByPosition(events, segments, at);
  }

  lemma ClosedOnes(events: seq<Event>, segments: seq<Segment>, at: seq<nat>)
    requires |at| <= |segments| && AllClosed(events, segments[..|at|])
    requires forall k | 0 <= k < |at| :: at[k] < |events| && IsResult(events[at[k]]) && |Results(events[..at[k]])| == k
    ensures forall k | 0 <= k < |at| :: ClosedAt(events, segments[k], at[k]) && segments[k].ordinal == k + 1
  {
    forall k | 0 <= k < |at| ensures ClosedAt(events, segments[k], at[k]) && segments[k].ordinal == k + 1 {
      assert segments[..|at|][k] == segments[k];
      ClosedByPosition(events, segments[k], k, at[k]);
    }
  }

  lemma ClosedByPosition(events: seq<Event>, segment: Segment, k: nat, i: nat)
    requires i < |events| && IsResult(events[i]) && |Results(events[..i])| == k && ClosesIn(events, segment, k)
    ensures ClosedAt(events, segment, i) && segment.ordinal == k + 1
  {
    var j :| 0 <= j < |events| && IsResult(events[j]) && |Results(events[..j])| == k && segment == Closed(events, j, k);
    if i < j { ResultsGrow(events, i, j); }
    if j < i { ResultsGrow(events, j, i); }
    HandledByPosition(events, i);
  }

  lemma LastResultAt(events: seq<Event>, at: seq<nat>)
    requires |at| == |Results(events)| && (forall k | 0 <= k < |at| :: at[k] < |events| && IsResult(events[at[k]]))
    requires forall k | 0 <= k < |at| :: |Results(events[..at[k]])| == k
    requires forall i | 0 <= i < |events| && IsResult(events[i]) :: i in at
    requires forall k, l | 0 <= k < l < |at| :: at[k] < at[l]
    ensures Unfinished(events) <==> at == [] || LeavesResumable(events[at[|at| - 1]])
  {
    if at != [] {
      var i := at[|at| - 1];
      OneEvent("", events, i);
      NoMoreResults(events, i + 1);
    }
  }

  lemma {:induction false} NoMoreResults(events: seq<Event>, n: nat)
    requires n <= |events| && |Results(events[..n])| == |Results(events)|
    ensures Results(events[..n]) == Results(events)
    decreases |events| - n
  {
    assert events[..|events|] == events;
    if n < |events| {
      OneEvent("", events, n);
      ResultsOnlyGrow(events, n + 1);
      NoMoreResults(events, n + 1);
    }
  }

  lemma {:induction false} ResultsOnlyGrow(events: seq<Event>, n: nat)
    requires n <= |events|
    ensures |Results(events[..n])| <= |Results(events)|
    decreases |events| - n
  {
    assert events[..|events|] == events;
    if n < |events| {
      OneEvent("", events, n);
      ResultsOnlyGrow(events, n + 1);
    }
  }
}
