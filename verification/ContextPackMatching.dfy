/**
 Matching resolved context packs to the references of an execution: two passes
 that fill maps keyed by the canonical text of a reference, and the proof that
 they succeed exactly when the packs are a permutation of the references.
 */
module ContextPackMatching {
  import opened CanonicalJson
  import Proofs = CanonicalJsonProofs
  import opened Sequences
  import opened Sorting

  /** verified says whether the pack carries the brand of the registry. */
  datatype Pack = Pack(ref: Data, payload: Value, verified: bool)

  datatype Error = InvalidRef | DuplicateRef | UnverifiedPack | ExtraPack | DuplicatePack | MissingPack

  datatype Result = Ok(packs: seq<Pack>) | Err(error: Error)

  /** The key of a reference; everything but the last section holds for any function of it. */
  type Keying = Data -> Text

  /** contextPackRefKey. */
  const CANONICAL_KEY: Keying := (ref: Data) => Canonical(ref)

  function RefKeys(keying: Keying, refs: seq<Data>): (r: seq<Text>)
    ensures |r| == |refs| && forall i | 0 <= i < |r| :: r[i] == keying(refs[i])
  {
    seq(|refs|, i requires 0 <= i < |refs| => keying(refs[i]))
  }

  function PackKeys(keying: Keying, packs: seq<Pack>): (r: seq<Text>)
    ensures |r| == |packs| && forall i | 0 <= i < |r| :: r[i] == keying(packs[i].ref)
  {
    seq(|packs|, i requires 0 <= i < |packs| => keying(packs[i].ref))
  }

  // ---------- The outcome, error by error ----------

  /** What is wrong with the i-th reference, the earlier ones being in order. */
  function RefErrorAt(keying: Keying, parses: Data -> bool, refs: seq<Data>, i: nat): Option<Error>
    requires i < |refs|
  {
    if !parses(refs[i]) then Some(InvalidRef)
    else if keying(refs[i]) in RefKeys(keying, refs[..i]) then Some(DuplicateRef)
    else None
  }

  function PackErrorAt(keying: Keying, refs: seq<Data>, packs: seq<Pack>, i: nat): Option<Error>
    requires i < |packs|
  {
    if !packs[i].verified then Some(UnverifiedPack)
    else if keying(packs[i].ref) !in RefKeys(keying, refs) then Some(ExtraPack)
    else if keying(packs[i].ref) in PackKeys(keying, packs[..i]) then Some(DuplicatePack)
    else None
  }

  /** The first error among the references up to n. */
  function FirstRefError(keying: Keying, parses: Data -> bool, refs: seq<Data>, n: nat): Option<Error>
    requires n <= |refs|
  {
    if n == 0 then None
    else
      match FirstRefError(keying, parses, refs, n - 1)
      case Some(e) => Some(e)
      case None => RefErrorAt(keying, parses, refs, n - 1)
  }

  function FirstPackError(keying: Keying, refs: seq<Data>, packs: seq<Pack>, n: nat): Option<Error>
    requires n <= |packs|
  {
    if n == 0 then None
    else
      match FirstPackError(keying, refs, packs, n - 1)
      case Some(e) => Some(e)
      case None => PackErrorAt(keying, refs, packs, n - 1)
  }

  /** The outcome: the first error, or an arrangement of the packs in the order of the references. */
  predicate IsOutcome(keying: Keying, parses: Data -> bool, refs: seq<Data>, packs: seq<Pack>, r: Result) {
    match FirstRefError(keying, parses, refs, |refs|)
    case Some(e) => r == Err(e)
    case None =>
      match FirstPackError(keying, refs, packs, |packs|)
      case Some(e) => r == Err(e)
      case None =>
        if |packs| != |refs| then r == Err(MissingPack)
        else r.Ok? && |r.packs| == |refs| && forall i | 0 <= i < |refs| :: r.packs[i] in packs && keying(r.packs[i].ref) == keying(refs[i])
  }

  // ---------- The two passes ----------

  lemma {:induction false} RefErrorStays(keying: Keying, parses: Data -> bool, refs: seq<Data>, m: nat, n: nat)
    requires m <= n <= |refs| && FirstRefError(keying, parses, refs, m).Some?
    ensures FirstRefError(keying, parses, refs, n) == FirstRefError(keying, parses, refs, m)
    decreases n
  {
    if m < n { RefErrorStays(keying, parses, refs, m, n - 1); }
  }

  lemma {:induction false} PackErrorStays(keying: Keying, refs: seq<Data>, packs: seq<Pack>, m: nat, n: nat)
    requires m <= n <= |packs| && FirstPackError(keying, refs, packs, m).Some?
    ensures FirstPackError(keying, refs, packs, n) == FirstPackError(keying, refs, packs, m)
    decreases n
  {
    if m < n { PackErrorStays(keying, refs, packs, m, n - 1); }
  }

  method CollectRefs(keying: Keying, parses: Data -> bool, refs: seq<Data>) returns (expected: seq<Text>, error: Option<Error>)
    ensures error == FirstRefError(keying, parses, refs, |refs|)
    ensures error.None? ==> expected == RefKeys(keying, refs)
  {
    var known: set<Text> := {};
    expected := [];
    var i := 0;
    while i < |refs|
      invariant 0 <= i <= |refs|
      invariant expected == RefKeys(keying, refs[..i]) && known == set k | k in expected
      invariant FirstRefError(keying, parses, refs, i) == None
    {
      var key := keying(refs[i]);
      if !parses(refs[i]) || key in known {
        RefErrorStays(keying, parses, refs, i + 1, |refs|);
        return expected, Some(if !parses(refs[i]) then InvalidRef else DuplicateRef);
      }
      assert refs[..i + 1] == refs[..i] + [refs[i]];
      expected, known := expected + [key], known + {key};
      i := i + 1;
    }
    assert refs[..i] == refs;
    return expected, None;
  }

  /** The matched map holds the first i packs, each under its key. */
  predicate Holds(keying: Keying, matched: map<Text, Pack>, packs: seq<Pack>) {
    && (forall p | p in packs :: keying(p.ref) in matched)
    && (forall k | k in matched :: matched[k] in packs && keying(matched[k].ref) == k)
    && |matched| == |packs|
  }

  method CollectPacks(keying: Keying, refs: seq<Data>, expected: seq<Text>, packs: seq<Pack>) returns (matched: map<Text, Pack>, error: Option<Error>)
    requires expected == RefKeys(keying, refs)
    ensures error == FirstPackError(keying, refs, packs, |packs|)
    ensures error.None? ==> Holds(keying, matched, packs) && forall k | k in matched :: k in expected
  {
    matched := map[];
    var i := 0;
    while i < |packs|
      invariant 0 <= i <= |packs|
      invariant Holds(keying, matched, packs[..i]) && forall k | k in matched :: k in expected
      invariant FirstPackError(keying, refs, packs, i) == None
    {
      var p := packs[i];
      var key := keying(p.ref);
      assert key in matched <==> key in PackKeys(keying, packs[..i]) by {
        if key in matched {
          var j :| 0 <= j < i && packs[..i][j] == matched[key];
          assert PackKeys(keying, packs[..i])[j] == key;
        }
      }
      if !p.verified || key !in expected || key in matched {
        PackErrorStays(keying, refs, packs, i + 1, |packs|);
        return matched, Some(if !p.verified then UnverifiedPack else if key !in expected then ExtraPack else DuplicatePack);
      }
      assert packs[..i + 1] == packs[..i] + [p];
      matched := matched[key := p];
      i := i + 1;
    }
    assert packs[..i] == packs;
    return matched, None;
  }

  lemma AllMatched(keying: Keying, parses: Data -> bool, refs: seq<Data>, packs: seq<Pack>, matched: map<Text, Pack>)
    requires FirstRefError(keying, parses, refs, |refs|) == None && FirstPackError(keying, refs, packs, |packs|) == None
    requires |packs| == |refs| && Holds(keying, matched, packs)
    ensures forall k | k in RefKeys(keying, refs) :: k in matched
  {
    NoErrorsMeanPermutation(keying, parses, refs, packs);
    KeysCovered(keying, refs, packs);
    forall k | k in RefKeys(keying, refs) ensures k in matched {
      var j :| 0 <= j < |packs| && PackKeys(keying, packs)[j] == k;
      assert packs[j] in packs;
    }
  }

  method MatchForExecution(keying: Keying, parses: Data -> bool, refs: seq<Data>, packs: seq<Pack>) returns (r: Result)
    ensures IsOutcome(keying, parses, refs, packs, r)
  {
    var expected, refError := CollectRefs(keying, parses, refs);
    if refError.Some? { return Err(refError.value); }
    var matched, packError := CollectPacks(keying, refs, expected, packs);
    if packError.Some? { return Err(packError.value); }
    if |matched| != |expected| { return Err(MissingPack); }
    AllMatched(keying, parses, refs, packs, matched);
    return Ok(seq(|expected|, i requires 0 <= i < |expected| => matched[expected[i]]));
  }

  // ---------- When it succeeds ----------

  lemma {:induction false} RefErrorsExactly(keying: Keying, parses: Data -> bool, refs: seq<Data>, n: nat)
    requires n <= |refs|
    ensures FirstRefError(keying, parses, refs, n) == None <==>
            (forall i | 0 <= i < n :: parses(refs[i])) && forall i, j | 0 <= i < j < n :: keying(refs[i]) != keying(refs[j])
  {
    if n > 0 {
      RefErrorsExactly(keying, parses, refs, n - 1);
      KeyAmongEarlier(RefKeys(keying, refs), n - 1);
      assert RefKeys(keying, refs[..n - 1]) == RefKeys(keying, refs)[..n - 1];
    }
  }

  lemma KeyAmongEarlier(keys: seq<Text>, n: nat)
    requires n < |keys|
    ensures keys[n] in keys[..n] <==> exists i :: 0 <= i < n && keys[i] == keys[n]
  {
  }

  lemma {:induction false} PackErrorsExactly(keying: Keying, refs: seq<Data>, packs: seq<Pack>, n: nat)
    requires n <= |packs|
    ensures FirstPackError(keying, refs, packs, n) == None <==>
            && (forall i | 0 <= i < n :: packs[i].verified && keying(packs[i].ref) in RefKeys(keying, refs))
            && forall i, j | 0 <= i < j < n :: keying(packs[i].ref) != keying(packs[j].ref)
  {
    if n > 0 {
      PackErrorsExactly(keying, refs, packs, n - 1);
      KeyAmongEarlier(PackKeys(keying, packs), n - 1);
      assert PackKeys(keying, packs[..n - 1]) == PackKeys(keying, packs)[..n - 1];
    }
  }

  /** The packs are a permutation of the references, by key. */
  predicate Permutes(keying: Keying, refs: seq<Data>, packs: seq<Pack>) {
    multiset(PackKeys(keying, packs)) == multiset(RefKeys(keying, refs))
  }

  lemma NoErrorsMeanPermutation(keying: Keying, parses: Data -> bool, refs: seq<Data>, packs: seq<Pack>)
    requires FirstRefError(keying, parses, refs, |refs|) == None && FirstPackError(keying, refs, packs, |packs|) == None && |packs| == |refs|
    ensures Permutes(keying, refs, packs)
  {
    RefErrorsExactly(keying, parses, refs, |refs|);
    PackErrorsExactly(keying, refs, packs, |packs|);
    Pigeonhole(PackKeys(keying, packs), RefKeys(keying, refs));
  }

  lemma KeysCovered(keying: Keying, refs: seq<Data>, packs: seq<Pack>)
    requires Permutes(keying, refs, packs)
    ensures |packs| == |refs|
    ensures forall k :: k in RefKeys(keying, refs) <==> k in PackKeys(keying, packs)
  {
    assert |multiset(PackKeys(keying, packs))| == |packs| && |multiset(RefKeys(keying, refs))| == |refs|;
    forall k ensures k in RefKeys(keying, refs) <==> k in PackKeys(keying, packs) {
      assert k in RefKeys(keying, refs) <==> k in multiset(RefKeys(keying, refs));
      assert k in PackKeys(keying, packs) <==> k in multiset(PackKeys(keying, packs));
    }
  }

  predicate Matchable(keying: Keying, parses: Data -> bool, refs: seq<Data>, packs: seq<Pack>) {
    && (forall i | 0 <= i < |refs| :: parses(refs[i]))
    && (forall i, j | 0 <= i < j < |refs| :: keying(refs[i]) != keying(refs[j]))
    && (forall i | 0 <= i < |packs| :: packs[i].verified)
    && Permutes(keying, refs, packs)
  }

  /**
   Matching succeeds exactly when the references parse and have distinct keys
   and the packs are all branded and a permutation of them by key.
   */
  lemma MatchesExactly(keying: Keying, parses: Data -> bool, refs: seq<Data>, packs: seq<Pack>, r: Result)
    requires IsOutcome(keying, parses, refs, packs, r)
    ensures r.Ok? <==> Matchable(keying, parses, refs, packs)
  {
    RefErrorsExactly(keying, parses, refs, |refs|);
    PackErrorsExactly(keying, refs, packs, |packs|);
    if r.Ok? { NoErrorsMeanPermutation(keying, parses, refs, packs); }
    if Matchable(keying, parses, refs, packs) {
      KeysCovered(keying, refs, packs);
      DistinctAlong(RefKeys(keying, refs), PackKeys(keying, packs));
      forall i, j | 0 <= i < j < |packs| ensures keying(packs[i].ref) != keying(packs[j].ref) {
        assert PackKeys(keying, packs)[i] != PackKeys(keying, packs)[j];
      }
      forall i | 0 <= i < |packs| ensures keying(packs[i].ref) in RefKeys(keying, refs) { assert PackKeys(keying, packs)[i] in PackKeys(keying, packs); }
    }
  }

  /**
   The result is in the order of the references, uses every pack once, and does
   not depend on the order in which the packs came.
   */
  lemma ResultForgetsPackOrder(keying: Keying, parses: Data -> bool, refs: seq<Data>, packs: seq<Pack>, others: seq<Pack>, r: Result, s: Result)
    requires IsOutcome(keying, parses, refs, packs, r) && IsOutcome(keying, parses, refs, others, s)
    requires multiset(packs) == multiset(others) && r.Ok?
    ensures s == r
    ensures multiset(r.packs) == multiset(packs)
  {
    PackErrorsExactly(keying, refs, packs, |packs|);
    MatchesExactly(keying, parses, refs, packs, r);
    MatchesExactly(keying, parses, refs, others, s);
    SamePackKeys(keying, packs, others);
    SameVerified(packs, others);
    assert s.Ok?;
    forall i | 0 <= i < |refs| ensures r.packs[i] == s.packs[i] {
      assert s.packs[i] in multiset(others) && s.packs[i] in packs;
      SameKeySamePack(keying, packs, r.packs[i], s.packs[i]);
    }
    ArrangedUsesAll(keying, parses, refs, packs, r);
  }

  lemma ArrangedUsesAll(keying: Keying, parses: Data -> bool, refs: seq<Data>, packs: seq<Pack>, r: Result)
    requires IsOutcome(keying, parses, refs, packs, r) && r.Ok?
    ensures multiset(r.packs) == multiset(packs)
  {
    MatchesExactly(keying, parses, refs, packs, r);
    forall i, j | 0 <= i < j < |r.packs| ensures r.packs[i] != r.packs[j] { assert keying(refs[i]) != keying(refs[j]); }
    Pigeonhole(r.packs, packs);
  }

  lemma SameKeySamePack(keying: Keying, packs: seq<Pack>, p: Pack, q: Pack)
    requires forall i, j | 0 <= i < j < |packs| :: keying(packs[i].ref) != keying(packs[j].ref)
    requires p in packs && q in packs && keying(p.ref) == keying(q.ref)
    ensures p == q
  {
    var i :| 0 <= i < |packs| && packs[i] == p;
    var j :| 0 <= j < |packs| && packs[j] == q;
    assert !(i < j) && !(j < i);
  }

  lemma CancelOne<T>(x: T, a: multiset<T>, b: multiset<T>)
    requires multiset{x} + a == multiset{x} + b
    ensures a == b
  {
    assert a == (multiset{x} + a) - multiset{x};
    assert b == (multiset{x} + b) - multiset{x};
  }

  lemma SameVerified(packs: seq<Pack>, others: seq<Pack>)
    requires multiset(packs) == multiset(others)
    ensures |packs| == |others| && forall p :: p in packs <==> p in others
    ensures (forall i | 0 <= i < |packs| :: packs[i].verified) <==> (forall i | 0 <= i < |others| :: others[i].verified)
  {
    forall p ensures p in packs <==> p in others {
      assert p in packs <==> p in multiset(packs);
      assert p in others <==> p in multiset(others);
    }
    assert |multiset(packs)| == |packs| && |multiset(others)| == |others|;
    assert (forall i | 0 <= i < |packs| :: packs[i].verified) <==> forall p | p in packs :: p.verified;
    assert (forall i | 0 <= i < |others| :: others[i].verified) <==> forall p | p in others :: p.verified;
  }

  lemma KeysWithout(keying: Keying, packs: seq<Pack>, k: nat)
    requires k < |packs|
    ensures multiset(PackKeys(keying, packs)) == multiset{keying(packs[k].ref)} + multiset(PackKeys(keying, packs[..k] + packs[k + 1..]))
  {
    var before, after := PackKeys(keying, packs[..k]), PackKeys(keying, packs[k + 1..]);
    assert PackKeys(keying, packs) == before + [keying(packs[k].ref)] + after;
    assert PackKeys(keying, packs[..k] + packs[k + 1..]) == before + after;
  }

  /** Rearranged packs have rearranged keys. */
  lemma {:induction false} SamePackKeys(keying: Keying, packs: seq<Pack>, others: seq<Pack>)
    requires multiset(packs) == multiset(others)
    ensures multiset(PackKeys(keying, packs)) == multiset(PackKeys(keying, others))
    decreases |packs|
  {
    if packs != [] {
      SameElements(packs, others, packs[0]);
      var k := Without(others, packs[0]);
      var rest := others[..k] + others[k + 1..];
      SameRest(packs, rest);
      SamePackKeys(keying, packs[1..], rest);
      KeysWithout(keying, others, k);
      FirstKey(keying, packs);
    } else {
      assert |multiset(others)| == |others|;
    }
  }

  lemma FirstKey(keying: Keying, packs: seq<Pack>)
    requires packs != []
    ensures multiset(PackKeys(keying, packs)) == multiset{keying(packs[0].ref)} + multiset(PackKeys(keying, packs[1..]))
  {
    assert PackKeys(keying, packs) == [keying(packs[0].ref)] + PackKeys(keying, packs[1..]);
  }

  lemma SameRest(packs: seq<Pack>, rest: seq<Pack>)
    requires packs != [] && multiset(packs) == multiset{packs[0]} + multiset(rest)
    ensures multiset(packs[1..]) == multiset(rest)
  {
    assert packs == [packs[0]] + packs[1..];
    CancelOne(packs[0], multiset(packs[1..]), multiset(rest));
  }

  /** Equal keys are equal references: the key is a canonical text. */
  lemma KeysTellReferences(a: Data, b: Data)
    requires WellFormed(a) && WellFormed(b)
    ensures CANONICAL_KEY(a) == CANONICAL_KEY(b) <==> Meaning(a) == Meaning(b)
  {
    Proofs.SameCanonicalIsSameValue(a, b);
  }
}
