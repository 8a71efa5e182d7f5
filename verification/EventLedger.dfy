/**
 The append-only event ledger: streams, compare-and-append on the stream length
 and on the global event count, and why a caller whose two expected counts still
 match has seen everything that is in the ledger.
 */
module EventLedgers {
  import opened CanonicalJson
  import Sequences

  datatype Entry<B> = Entry(id: string, streamId: string, sequence: nat, body: B)

  /** The events of one stream, in ledger order. */
  function Stream<B>(es: seq<Entry<B>>, streamId: string): (r: seq<Entry<B>>)
    ensures forall e | e in r :: e in es && e.streamId == streamId
    ensures forall e | e in es && e.streamId == streamId :: e in r
  {
    if es == [] then []
    else
      var last := es[|es| - 1];
      Stream(es[..|es| - 1], streamId) + if last.streamId == streamId then [last] else []
  }

  function Ids<B>(es: seq<Entry<B>>): set<string> {
    set i | 0 <= i < |es| :: es[i].id
  }

  predicate Numbered<B>(es: seq<Entry<B>>, i: nat)
    requires i < |es|
  {
    es[i].sequence == |Stream(es[..i], es[i].streamId)| + 1
  }

  /** Event identifiers are unique and each event carries its position in its stream. */
  predicate WellFormedLedger<B>(es: seq<Entry<B>>) {
    && (forall i, j | 0 <= i < j < |es| :: es[i].id != es[j].id)
    && (forall i | 0 <= i < |es| :: Numbered(es, i))
  }

  datatype Expected = Expected(nextSequence: Option<nat>, globalCount: Option<nat>)

  predicate CountsMatch<B>(es: seq<Entry<B>>, streamId: string, expected: Expected) {
    && (expected.globalCount.Some? ==> expected.globalCount.value == |es|)
    && (expected.nextSequence.Some? ==> expected.nextSequence.value == |Stream(es, streamId)| + 1)
  }

  function NextEntry<B>(es: seq<Entry<B>>, id: string, streamId: string, body: B): Entry<B> {
    Entry(id, streamId, |Stream(es, streamId)| + 1, body)
  }

  /** The ledger of the program; identifiers are drawn outside and never repeat. */
  class EventLedger<B> {
    var entries: seq<Entry<B>>

    constructor ()
      ensures entries == []
    {
      entries := [];
    }

    /** Appends exactly when the expected counts match; otherwise reports a conflict and changes nothing. */
    method Append(id: string, streamId: string, body: B, expected: Expected) returns (appended: Option<Entry<B>>)
      requires WellFormedLedger(entries) && id !in Ids(entries)
      modifies this
      ensures WellFormedLedger(entries)
      ensures appended.Some? <==> CountsMatch(old(entries), streamId, expected)
      ensures appended.Some? ==> appended.value == NextEntry(old(entries), id, streamId, body)
                                 && entries == old(entries) + [appended.value]
      ensures appended.None? ==> entries == old(entries)
    {
      var globalCount, nextSequence := |entries|, |Stream(entries, streamId)| + 1;
      if expected.globalCount.Some? && expected.globalCount.value != globalCount { return None; }
      if expected.nextSequence.Some? && expected.nextSequence.value != nextSequence { return None; }
      var entry := Entry(id, streamId, nextSequence, body);
      AppendKeepsLedger(entries, entry);
      entries := entries + [entry];
      return Some(entry);
    }
  }

  lemma AppendKeepsLedger<B>(es: seq<Entry<B>>, e: Entry<B>)
    requires WellFormedLedger(es) && e.id !in Ids(es) && e.sequence == |Stream(es, e.streamId)| + 1
    ensures WellFormedLedger(es + [e])
  {
    var all := es + [e];
    forall i | 0 <= i < |all| ensures Numbered(all, i) {
      if i < |es| {
        assert all[..i] == es[..i] && Numbered(es, i);
      } else {
        assert all[..i] == es;
      }
    }
  }

  lemma PrefixIsLedger<B>(es: seq<Entry<B>>, n: nat)
    requires WellFormedLedger(es) && n <= |es|
    ensures WellFormedLedger(es[..n])
  {
    forall i | 0 <= i < n ensures Numbered(es[..n], i) {
      assert es[..n][..i] == es[..i] && Numbered(es, i);
    }
  }

  // ---------- Streams of a growing ledger ----------

  lemma StreamOfOne<B>(es: seq<Entry<B>>, e: Entry<B>, streamId: string)
    ensures Stream(es + [e], streamId) == Stream(es, streamId) + if e.streamId == streamId then [e] else []
  {
    Sequences.SplitLast(es, [e]);
    Sequences.Singleton(e);
    Sequences.Empty(es);
  }

  lemma {:induction false} StreamOver<B>(a: seq<Entry<B>>, b: seq<Entry<B>>, streamId: string)
    ensures Stream(a + b, streamId) == Stream(a, streamId) + Stream(b, streamId)
  {
    if b == [] {
      Sequences.Empty(a);
    } else {
      var front, last := b[..|b| - 1], b[|b| - 1];
      StreamOver(a, front, streamId);
      assert b == front + [last];
      Sequences.Assoc(a, front, [last]);
      StreamOfOne(a + front, last, streamId);
      StreamOfOne(front, last, streamId);
      Sequences.Assoc(Stream(a, streamId), Stream(front, streamId), if last.streamId == streamId then [last] else []);
    }
  }

  lemma StreamGrows<B>(es: seq<Entry<B>>, more: seq<Entry<B>>, streamId: string)
    ensures Stream(es, streamId) <= Stream(es + more, streamId)
  {
    StreamOver(es, more, streamId);
  }

  /**
   Optimistic concurrency: if a stream and the whole ledger were read at earlier
   moments, in either order, and the counts read then still match, then both
   reads are the present contents.
   */
  lemma MatchingCountsMeanCurrent<B>(es: seq<Entry<B>>, stream: seq<Entry<B>>, all: seq<Entry<B>>, streamId: string)
    requires stream <= Stream(es, streamId) && all <= es
    requires CountsMatch(es, streamId, Expected(Some(|stream| + 1), Some(|all|)))
    ensures stream == Stream(es, streamId) && all == es
  {
  }

  /** The stream keeps the order of the ledger: its i-th event carries sequence number i + 1. */
  lemma {:induction false} StreamIsNumbered<B>(es: seq<Entry<B>>, streamId: string, i: nat)
    requires WellFormedLedger(es) && i < |Stream(es, streamId)|
    ensures Stream(es, streamId)[i].sequence == i + 1
  {
    var front, last := es[..|es| - 1], es[|es| - 1];
    if i < |Stream(front, streamId)| {
      PrefixIsLedger(es, |es| - 1);
      StreamIsNumbered(front, streamId, i);
    } else {
      assert Numbered(es, |es| - 1);
    }
  }

  lemma IdIsUnique<B>(es: seq<Entry<B>>, a: Entry<B>, b: Entry<B>)
    requires WellFormedLedger(es) && a in es && b in es && a.id == b.id
    ensures a == b
  {
  }

  /** The first event the predicate accepts, as Array.find returns it. */
  function Find<B>(es: seq<Entry<B>>, p: Entry<B> -> bool): (r: Option<Entry<B>>)
    ensures r.Some? ==> r.value in es && p(r.value)
    ensures r.None? ==> forall e | e in es :: !p(e)
  {
    if es == [] then None
    else if p(es[0]) then Some(es[0])
    else Find(es[1..], p)
  }
}
