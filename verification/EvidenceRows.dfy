/**
 Reading the selected evidence rows in batches: the rows of all batches are
 collected in a map, and the reading succeeds exactly when they answer the
 selected references one for one.
 */
module EvidenceRows {
  import opened CanonicalJson
  import opened Sequences

  datatype Row = Row(evidenceId: string, contentHash: string, details: Value)

  /** The reader's answer to one batch of identifiers. */
  type Reader = seq<string> -> seq<Row>

  const BATCH := 50

  function RowIds(rows: seq<Row>): (r: seq<string>)
    ensures |r| == |rows| && forall i | 0 <= i < |r| :: r[i] == rows[i].evidenceId
  {
    seq(|rows|, i requires 0 <= i < |rows| => rows[i].evidenceId)
  }

  function BatchEnd(refs: seq<string>, offset: nat): (end: nat)
    requires offset < |refs|
    ensures offset < end <= |refs|
  {
    if offset + BATCH < |refs| then offset + BATCH else |refs|
  }

  /** The rows of all batches from an offset on, in the order they are read. */
  function RowsFrom(reader: Reader, refs: seq<string>, offset: nat): seq<Row>
    requires offset <= |refs|
    decreases |refs| - offset
  {
    if offset == |refs| then []
    else reader(refs[offset..BatchEnd(refs, offset)]) + RowsFrom(reader, refs, BatchEnd(refs, offset))
  }

  /** The rows answer the references one for one, and no reference repeats. */
  predicate Answers(rows: seq<Row>, refs: seq<string>) {
    Distinct(refs) && multiset(RowIds(rows)) == multiset(refs)
  }

  /** The map holds the rows, each under its identifier. */
  predicate HoldsRows(m: map<string, Row>, rows: seq<Row>) {
    && Distinct(RowIds(rows)) && |m| == |rows|
    && (forall r | r in rows :: r.evidenceId in m && m[r.evidenceId] == r)
    && (forall id | id in m :: m[id] in rows && m[id].evidenceId == id)
  }

  lemma OneRowMore(m: map<string, Row>, rows: seq<Row>, r: Row)
    requires HoldsRows(m, rows)
    ensures r.evidenceId !in m ==> HoldsRows(m[r.evidenceId := r], rows + [r])
    ensures r.evidenceId in m ==> !Distinct(RowIds(rows + [r]))
  {
    var ids, more := RowIds(rows), RowIds(rows + [r]);
    if r.evidenceId in m {
      var i :| 0 <= i < |rows| && rows[i] == m[r.evidenceId];
      assert more[i] == more[|rows|];
    } else {
      forall i | 0 <= i < |rows| ensures more[i] != r.evidenceId { assert rows[i] in rows; }
      assert forall i | 0 <= i < |rows| :: more[i] == ids[i];
    }
  }

  lemma RepeatsStay(rows: seq<Row>, more: seq<Row>)
    requires !Distinct(RowIds(rows))
    ensures !Distinct(RowIds(rows + more))
  {
    var i, j :| 0 <= i < j < |rows| && RowIds(rows)[i] == RowIds(rows)[j];
    assert RowIds(rows + more)[i] == RowIds(rows + more)[j];
  }

  lemma BatchPrefix(rows: seq<Row>, batch: seq<Row>, k: nat)
    requires k < |batch|
    ensures rows + batch[..k] + [batch[k]] == rows + batch[..k + 1]
    ensures rows + batch[..k + 1] + batch[k + 1..] == rows + batch
  {
  }

  /** A row that repeats spoils the whole batch. */
  lemma RowRepeats(m: map<string, Row>, rows: seq<Row>, batch: seq<Row>, k: nat)
    requires k < |batch| && HoldsRows(m, rows + batch[..k]) && batch[k].evidenceId in m
    ensures !Distinct(RowIds(rows + batch))
  {
    OneRowMore(m, rows + batch[..k], batch[k]);
    BatchPrefix(rows, batch, k);
    RepeatsStay(rows + batch[..k + 1], batch[k + 1..]);
  }

  lemma RowIsNew(m: map<string, Row>, rows: seq<Row>, batch: seq<Row>, k: nat)
    requires k < |batch| && HoldsRows(m, rows + batch[..k]) && batch[k].evidenceId !in m
    ensures HoldsRows(m[batch[k].evidenceId := batch[k]], rows + batch[..k + 1])
  {
    OneRowMore(m, rows + batch[..k], batch[k]);
    BatchPrefix(rows, batch, k);
  }

  /** The inner loop: the rows of one batch go into the map unless one of them repeats. */
  method AddBatch(m: map<string, Row>, ghost rows: seq<Row>, batch: seq<Row>) returns (grown: Option<map<string, Row>>)
    requires HoldsRows(m, rows)
    ensures grown.Some? ==> HoldsRows(grown.value, rows + batch)
    ensures grown.None? ==> !Distinct(RowIds(rows + batch))
  {
    var all := m;
    var k := 0;
    assert rows + batch[..0] == rows;
    while k < |batch|
      invariant 0 <= k <= |batch| && HoldsRows(all, rows + batch[..k])
    {
      if batch[k].evidenceId in all {
        RowRepeats(all, rows, batch, k);
        return None;
      }
      RowIsNew(all, rows, batch, k);
      all := all[batch[k].evidenceId := batch[k]];
      k := k + 1;
    }
    assert batch[..k] == batch;
    return Some(all);
  }

  method ReadSelectedRows(reader: Reader, refs: seq<string>) returns (rows: Option<map<string, Row>>)
    ensures rows.Some? <==> Answers(RowsFrom(reader, refs, 0), refs)
    ensures rows.Some? ==> HoldsRows(rows.value, RowsFrom(reader, refs, 0)) && forall id :: id in rows.value <==> id in refs
  {
    var m: map<string, Row> := map[];
    ghost var read: seq<Row> := [];
    var offset := 0;
    while offset < |refs|
      invariant 0 <= offset <= |refs| && HoldsRows(m, read)
      invariant read + RowsFrom(reader, refs, offset) == RowsFrom(reader, refs, 0)
      decreases |refs| - offset
    {
      var end := BatchEnd(refs, offset);
      var batch := reader(refs[offset..end]);
      Assoc(read, batch, RowsFrom(reader, refs, end));
      var grown := AddBatch(m, read, batch);
      if grown.None? {
        RepeatsStay(read + batch, RowsFrom(reader, refs, end));
        RepeatedRowsDoNotAnswer(RowsFrom(reader, refs, 0), refs);
        return None;
      }
      m, read, offset := grown.value, read + batch, end;
    }
    Empty(read);
    AnswersExactly(m, read, refs);
    if |m| != |refs| || exists id :: id in m && id !in refs { return None; }
    return Some(m);
  }

  lemma RepeatedRowsDoNotAnswer(rows: seq<Row>, refs: seq<string>)
    requires !Distinct(RowIds(rows))
    ensures !Answers(rows, refs)
  {
    if Answers(rows, refs) {
      var ids := RowIds(rows);
      var i, j :| 0 <= i < j < |ids| && ids[i] == ids[j];
      TwiceCounts(ids, i, j);
      OnceCounts(refs, ids[i]);
    }
  }

  /** As many rows as references, with different identifiers, all of them asked for: that is one row for each. */
  lemma AnswersExactly(m: map<string, Row>, rows: seq<Row>, refs: seq<string>)
    requires HoldsRows(m, rows)
    ensures Answers(rows, refs) <==> |m| == |refs| && forall id | id in m :: id in refs
    ensures Answers(rows, refs) ==> forall id :: id in m <==> id in refs
  {
    var ids := RowIds(rows);
    forall id ensures id in ids <==> id in m {
      if id in ids {
        var i :| 0 <= i < |ids| && ids[i] == id;
        assert rows[i] in rows;
      }
      if id in m {
        var i :| 0 <= i < |rows| && rows[i] == m[id];
        assert ids[i] == id;
      }
    }
    if |m| == |refs| && forall id | id in m :: id in refs {
      Pigeonhole(ids, refs);
      DistinctAlong(ids, refs);
    }
    if Answers(rows, refs) {
      assert |multiset(ids)| == |ids| && |multiset(refs)| == |refs|;
      forall id ensures id in ids <==> id in refs {
        assert id in ids <==> id in multiset(ids);
        assert id in refs <==> id in multiset(refs);
      }
    }
  }
}
