/**
 The canonical form of a selection manifest: included references, omissions,
 sample references and source event identifiers sorted by their comparison keys.
 It is idempotent, keeps the manifest hash, and forgets the order of its parts
 exactly as far as their keys tell them apart.
 */
module SelectionManifest {
  import opened CanonicalJson
  import opened Sorting
  import opened TextSets

  datatype IncludedRef = IncludedRef(
    refKind: string,
    refId: string,
    sortKey: string,
    contentHash: Option<string>,
    rowHash: Option<string>,
    sourceEventIds: seq<string>,
    mandatory: bool)

  datatype SampleRef = SampleRef(refKind: string, refId: string, contentHash: Option<string>)

  datatype Omission = Omission(
    reasonCode: string, refKind: string, aggregateKey: string, count: int, sampleRefs: Option<seq<SampleRef>>)

  /** The selection itself; header holds its scope, high water marks, window and eligible count. */
  datatype Body = Body(header: Value, includedRefs: seq<IncludedRef>, omissions: seq<Omission>)

  datatype Manifest = Manifest(body: Body, manifestHash: string)

  // ---------- Comparators ----------

  /** compareByFields, as an order on lists of texts. */
  predicate FieldsLeq(a: seq<string>, b: seq<string>) {
    a == [] || (b != [] && TextLeq(a[0], b[0]) && (a[0] == b[0] ==> FieldsLeq(a[1..], b[1..])))
  }

  function OrEmpty(o: Option<string>): string {
    if o.Some? then o.value else ""
  }

  function RefKey(r: IncludedRef): seq<string> {
    [r.sortKey, r.refKind, r.refId, OrEmpty(r.contentHash), OrEmpty(r.rowHash)]
  }

  function SampleKey(s: SampleRef): seq<string> {
    [s.refKind, s.refId, OrEmpty(s.contentHash)]
  }

  function OmissionKey(o: Omission): seq<string> {
    [o.reasonCode, o.refKind, o.aggregateKey]
  }

  const REF_ORDER: (IncludedRef, IncludedRef) -> bool := (a: IncludedRef, b: IncludedRef) => FieldsLeq(RefKey(a), RefKey(b))
  const SAMPLE_ORDER: (SampleRef, SampleRef) -> bool := (a: SampleRef, b: SampleRef) => FieldsLeq(SampleKey(a), SampleKey(b))
  const OMISSION_ORDER: (Omission, Omission) -> bool := (a: Omission, b: Omission) => FieldsLeq(OmissionKey(a), OmissionKey(b))

  lemma {:induction false} FieldsLeqIsTotal(a: seq<string>, b: seq<string>)
    ensures FieldsLeq(a, b) || FieldsLeq(b, a)
    ensures FieldsLeq(a, b) && FieldsLeq(b, a) ==> a == b
  {
    if a != [] && b != [] {
      TextLeqIsTotal(a[0], b[0]);
      FieldsLeqIsTotal(a[1..], b[1..]);
      if FieldsLeq(a, b) && FieldsLeq(b, a) {
        assert a == [a[0]] + a[1..] && b == [b[0]] + b[1..];
      }
    }
  }

  lemma {:induction false} FieldsLeqIsTransitive(a: seq<string>, b: seq<string>, c: seq<string>)
    requires FieldsLeq(a, b) && FieldsLeq(b, c)
    ensures FieldsLeq(a, c)
  {
    if a != [] {
      TextLeqIsTransitive(a[0], b[0], c[0]);
      if a[0] == c[0] {
        TextLeqIsTotal(a[0], b[0]);
        FieldsLeqIsTransitive(a[1..], b[1..], c[1..]);
      }
    }
  }

  /** The three comparators order by key, and tie exactly on equal keys. */
  lemma OrdersAreTotal()
    ensures TotalPreorder(REF_ORDER) && TotalPreorder(SAMPLE_ORDER) && TotalPreorder(OMISSION_ORDER)
  {
    forall a: seq<string>, b: seq<string> ensures FieldsLeq(a, b) || FieldsLeq(b, a) { FieldsLeqIsTotal(a, b); }
    forall a: seq<string>, b: seq<string>, c: seq<string> | FieldsLeq(a, b) && FieldsLeq(b, c) ensures FieldsLeq(a, c) {
      FieldsLeqIsTransitive(a, b, c);
    }
  }

  // ---------- The canonical form ----------

  function NormalRef(r: IncludedRef): IncludedRef {
    r.(sourceEventIds := StableSort(TEXT_ORDER, r.sourceEventIds))
  }

  function NormalOmission(o: Omission): Omission {
    o.(sampleRefs := if o.sampleRefs.None? then None else Some(StableSort(SAMPLE_ORDER, o.sampleRefs.value)))
  }

  const NORMAL_REF: IncludedRef -> IncludedRef := (r: IncludedRef) => NormalRef(r)
  const NORMAL_OMISSION: Omission -> Omission := (o: Omission) => NormalOmission(o)

  function CanonicalRefs(refs: seq<IncludedRef>): seq<IncludedRef> {
    Map(NORMAL_REF, StableSort(REF_ORDER, refs))
  }

  function CanonicalOmissions(omissions: seq<Omission>): seq<Omission> {
    Map(NORMAL_OMISSION, StableSort(OMISSION_ORDER, omissions))
  }

  /** canonicalSelectionManifestBody. */
  function CanonicalBody(b: Body): Body {
    Body(b.header, CanonicalRefs(b.includedRefs), CanonicalOmissions(b.omissions))
  }

  lemma SameRefKeys(r: IncludedRef)
    ensures RefKey(NORMAL_REF(r)) == RefKey(r)
  {
  }

  lemma SameOmissionKeys(o: Omission)
    ensures OmissionKey(NORMAL_OMISSION(o)) == OmissionKey(o)
  {
  }

  /** Normalising the parts first and sorting afterwards gives the same. */
  lemma NormaliseThenSort(refs: seq<IncludedRef>, omissions: seq<Omission>)
    ensures CanonicalRefs(refs) == StableSort(REF_ORDER, Map(NORMAL_REF, refs))
    ensures CanonicalOmissions(omissions) == StableSort(OMISSION_ORDER, Map(NORMAL_OMISSION, omissions))
  {
    forall a, b ensures REF_ORDER(NORMAL_REF(a), NORMAL_REF(b)) == REF_ORDER(a, b) { SameRefKeys(a); SameRefKeys(b); }
    forall a, b ensures OMISSION_ORDER(NORMAL_OMISSION(a), NORMAL_OMISSION(b)) == OMISSION_ORDER(a, b) {
      SameOmissionKeys(a);
      SameOmissionKeys(b);
    }
    SortCommutesWithMap(REF_ORDER, REF_ORDER, NORMAL_REF, refs);
    SortCommutesWithMap(OMISSION_ORDER, OMISSION_ORDER, NORMAL_OMISSION, omissions);
  }

  lemma NormalIsNormal(r: IncludedRef, o: Omission)
    ensures NormalRef(NormalRef(r)) == NormalRef(r)
    ensures NormalOmission(NormalOmission(o)) == NormalOmission(o)
  {
    TextOrderIsTotal();
    OrdersAreTotal();
    SortIsIdempotent(TEXT_ORDER, r.sourceEventIds);
    if o.sampleRefs.Some? { SortIsIdempotent(SAMPLE_ORDER, o.sampleRefs.value); }
  }

  lemma MapTwice<T(!new)>(f: T -> T, s: seq<T>)
    requires forall x :: f(f(x)) == f(x)
    ensures Map(f, Map(f, s)) == Map(f, s)
  {
  }

  lemma CanonicalOmissionsIsIdempotent(omissions: seq<Omission>)
    ensures CanonicalOmissions(CanonicalOmissions(omissions)) == CanonicalOmissions(omissions)
  {
    OrdersAreTotal();
    forall o ensures NORMAL_OMISSION(NORMAL_OMISSION(o)) == NORMAL_OMISSION(o) {
      NormalIsNormal(IncludedRef("", "", "", None, None, [], false), o);
    }
    var once := CanonicalOmissions(omissions);
    NormaliseThenSort([], omissions);
    SortIsIdempotent(OMISSION_ORDER, Map(NORMAL_OMISSION, omissions));
    assert StableSort(OMISSION_ORDER, once) == once;
    MapTwice(NORMAL_OMISSION, StableSort(OMISSION_ORDER, omissions));
  }

  lemma CanonicalRefsIsIdempotent(refs: seq<IncludedRef>)
    ensures CanonicalRefs(CanonicalRefs(refs)) == CanonicalRefs(refs)
  {
    OrdersAreTotal();
    forall r ensures NORMAL_REF(NORMAL_REF(r)) == NORMAL_REF(r) { NormalIsNormal(r, Omission("", "", "", 0, None)); }
    var once := CanonicalRefs(refs);
    NormaliseThenSort(refs, []);
    SortIsIdempotent(REF_ORDER, Map(NORMAL_REF, refs));
    assert StableSort(REF_ORDER, once) == once;
    MapTwice(NORMAL_REF, StableSort(REF_ORDER, refs));
  }

  lemma CanonicalIsIdempotent(b: Body)
    ensures CanonicalBody(CanonicalBody(b)) == CanonicalBody(b)
  {
    CanonicalRefsIsIdempotent(b.includedRefs);
    CanonicalOmissionsIsIdempotent(b.omissions);
  }

  // ---------- What the canonical form forgets ----------

  /**
   Exactly when two manifests have the same canonical form: the same header, and
   for every comparison key the same sequence of normalised references, and of
   normalised omissions, under that key.
   */
  lemma CanonicalAgreesIff(a: Body, b: Body)
    ensures CanonicalBody(a) == CanonicalBody(b) <==>
            && a.header == b.header
            && SameClasses(REF_ORDER, Map(NORMAL_REF, a.includedRefs), Map(NORMAL_REF, b.includedRefs))
            && SameClasses(OMISSION_ORDER, Map(NORMAL_OMISSION, a.omissions), Map(NORMAL_OMISSION, b.omissions))
  {
    OrdersAreTotal();
    NormaliseThenSort(a.includedRefs, a.omissions);
    NormaliseThenSort(b.includedRefs, b.omissions);
    SortsAlikeIff(REF_ORDER, Map(NORMAL_REF, a.includedRefs), Map(NORMAL_REF, b.includedRefs));
    SortsAlikeIff(OMISSION_ORDER, Map(NORMAL_OMISSION, a.omissions), Map(NORMAL_OMISSION, b.omissions));
  }

  predicate KeysApart(b: Body) {
    && (forall i, j | 0 <= i < j < |b.includedRefs| :: RefKey(b.includedRefs[i]) != RefKey(b.includedRefs[j]))
    && (forall i, j | 0 <= i < j < |b.omissions| :: OmissionKey(b.omissions[i]) != OmissionKey(b.omissions[j]))
  }

  lemma KeysApartMeansNoTies(b: Body)
    requires KeysApart(b)
    ensures NoTies(REF_ORDER, Map(NORMAL_REF, b.includedRefs))
    ensures NoTies(OMISSION_ORDER, Map(NORMAL_OMISSION, b.omissions))
  {
    var refs, oms := Map(NORMAL_REF, b.includedRefs), Map(NORMAL_OMISSION, b.omissions);
    forall x, y | x in refs && y in refs && REF_ORDER(x, y) && REF_ORDER(y, x) ensures x == y {
      FieldsLeqIsTotal(RefKey(x), RefKey(y));
      var i :| 0 <= i < |refs| && refs[i] == x;
      var j :| 0 <= j < |refs| && refs[j] == y;
      assert RefKey(b.includedRefs[i]) == RefKey(b.includedRefs[j]);
    }
    forall x, y | x in oms && y in oms && OMISSION_ORDER(x, y) && OMISSION_ORDER(y, x) ensures x == y {
      FieldsLeqIsTotal(OmissionKey(x), OmissionKey(y));
      var i :| 0 <= i < |oms| && oms[i] == x;
      var j :| 0 <= j < |oms| && oms[j] == y;
      assert OmissionKey(b.omissions[i]) == OmissionKey(b.omissions[j]);
    }
  }

  /**
   With pairwise different comparison keys, rearranging references and omissions
   in any way, and the parts of each up to their normal form, changes nothing.
   */
  lemma CanonicalForgetsOrder(a: Body, b: Body)
    requires KeysApart(a) && a.header == b.header
    requires multiset(Map(NORMAL_REF, a.includedRefs)) == multiset(Map(NORMAL_REF, b.includedRefs))
    requires multiset(Map(NORMAL_OMISSION, a.omissions)) == multiset(Map(NORMAL_OMISSION, b.omissions))
    ensures CanonicalBody(a) == CanonicalBody(b)
  {
    OrdersAreTotal();
    KeysApartMeansNoTies(a);
    NormaliseThenSort(a.includedRefs, a.omissions);
    NormaliseThenSort(b.includedRefs, b.omissions);
    SortForgetsOrder(REF_ORDER, Map(NORMAL_REF, a.includedRefs), Map(NORMAL_REF, b.includedRefs));
    SortForgetsOrder(OMISSION_ORDER, Map(NORMAL_OMISSION, a.omissions), Map(NORMAL_OMISSION, b.omissions));
  }

  /** Source event identifiers may come in any order at all. */
  lemma EventOrderIsForgotten(r: IncludedRef, ids: seq<string>)
    requires multiset(ids) == multiset(r.sourceEventIds)
    ensures NormalRef(r.(sourceEventIds := ids)) == NormalRef(r)
  {
    TextOrderIsTotal();
    SortForgetsOrder(TEXT_ORDER, r.sourceEventIds, ids);
  }

  /** Sample references may come in any order if their keys differ. */
  lemma SampleOrderIsForgotten(o: Omission, samples: seq<SampleRef>)
    requires o.sampleRefs.Some? && multiset(samples) == multiset(o.sampleRefs.value)
    requires forall x, y | x in samples && y in samples && SampleKey(x) == SampleKey(y) :: x == y
    ensures NormalOmission(o.(sampleRefs := Some(samples))) == NormalOmission(o)
  {
    OrdersAreTotal();
    forall x, y | x in samples && y in samples && SAMPLE_ORDER(x, y) && SAMPLE_ORDER(y, x) ensures x == y {
      FieldsLeqIsTotal(SampleKey(x), SampleKey(y));
    }
    SortForgetsOrder(SAMPLE_ORDER, samples, o.sampleRefs.value);
  }

  /** With equal keys it does matter: two references that differ only where the comparator does not look. */
  lemma TiesKeepTheirOrder(header: Value, r: IncludedRef)
    ensures var p, q := r.(mandatory := true), r.(mandatory := false);
            CanonicalBody(Body(header, [p, q], [])) != CanonicalBody(Body(header, [q, p], []))
  {
    var p, q := r.(mandatory := true), r.(mandatory := false);
    TieOfTwo(p, q);
    TieOfTwo(q, p);
    assert CanonicalRefs([p, q])[0] == NormalRef(p) && CanonicalRefs([q, p])[0] == NormalRef(q);
  }

  lemma TieOfTwo(p: IncludedRef, q: IncludedRef)
    requires RefKey(p) == RefKey(q)
    ensures StableSort(REF_ORDER, [p, q]) == [p, q]
  {
    FieldsLeqIsTotal(RefKey(p), RefKey(q));
    assert REF_ORDER(p, q);
    assert [p][..0] == [];
    assert StableSort(REF_ORDER, [p]) == [p];
    assert [p, q][..1] == [p];
    assert StableInsert(REF_ORDER, q, [p]) == [p] + StableInsert(REF_ORDER, q, []);
  }

  // ---------- Hashes ----------

  /** The serialising hash of a canonical body; nothing is assumed of it. */
  type Hash = Body -> string

  function ManifestHash(hash: Hash, b: Body): string {
    hash(CanonicalBody(b))
  }

  predicate HashAccepted(hash: Hash, m: Manifest) {
    m.manifestHash == ManifestHash(hash, m.body)
  }

  /** canonicalSelectionManifest. */
  function CanonicalManifest(hash: Hash, m: Manifest): Manifest {
    var body := CanonicalBody(m.body);
    Manifest(body, ManifestHash(hash, body))
  }

  /**
   An accepted manifest keeps its hash in canonical form, and what a pack
   carries always passes the hash check again.
   */
  lemma CanonicalKeepsHash(hash: Hash, m: Manifest)
    ensures HashAccepted(hash, CanonicalManifest(hash, m))
    ensures HashAccepted(hash, m) <==> CanonicalManifest(hash, m).manifestHash == m.manifestHash
    ensures CanonicalManifest(hash, CanonicalManifest(hash, m)) == CanonicalManifest(hash, m)
  {
    CanonicalIsIdempotent(m.body);
  }

  // ---------- The canonical order ----------

  lemma FieldsStep(a: string, s: seq<string>, b: string, t: seq<string>)
    ensures FieldsLeq([a] + s, [b] + t) <==> if a != b then TextLeq(a, b) else FieldsLeq(s, t)
  {
    var x, y := [a] + s, [b] + t;
    assert x[0] == a && y[0] == b && x[1..] == s && y[1..] == t;
    TextLeqIsTotal(a, b);
  }

  /** References are ordered by sort key, then kind, then identifier, then content hash, then row hash, no hash first. */
  predicate RefPrecedes(a: IncludedRef, b: IncludedRef) {
    if a.sortKey != b.sortKey then TextLeq(a.sortKey, b.sortKey)
    else if a.refKind != b.refKind then TextLeq(a.refKind, b.refKind)
    else if a.refId != b.refId then TextLeq(a.refId, b.refId)
    else if OrEmpty(a.contentHash) != OrEmpty(b.contentHash) then TextLeq(OrEmpty(a.contentHash), OrEmpty(b.contentHash))
    else TextLeq(OrEmpty(a.rowHash), OrEmpty(b.rowHash))
  }

  predicate SamplePrecedes(a: SampleRef, b: SampleRef) {
    if a.refKind != b.refKind then TextLeq(a.refKind, b.refKind)
    else if a.refId != b.refId then TextLeq(a.refId, b.refId)
    else TextLeq(OrEmpty(a.contentHash), OrEmpty(b.contentHash))
  }

  predicate OmissionPrecedes(a: Omission, b: Omission) {
    if a.reasonCode != b.reasonCode then TextLeq(a.reasonCode, b.reasonCode)
    else if a.refKind != b.refKind then TextLeq(a.refKind, b.refKind)
    else TextLeq(a.aggregateKey, b.aggregateKey)
  }

  lemma ThreeFields(a: string, b: string, c: string, x: string, y: string, z: string)
    ensures FieldsLeq([a, b, c], [x, y, z]) <==>
            if a != x then TextLeq(a, x) else if b != y then TextLeq(b, y) else TextLeq(c, z)
  {
    assert [a, b, c] == [a] + ([b] + ([c] + [])) && [x, y, z] == [x] + ([y] + ([z] + []));
    FieldsStep(a, [b] + ([c] + []), x, [y] + ([z] + []));
    FieldsStep(b, [c] + [], y, [z] + []);
    FieldsStep(c, [], z, []);
    TextLeqIsTotal(c, z);
  }

  lemma OrderSamplesExactly(a: SampleRef, b: SampleRef)
    ensures SAMPLE_ORDER(a, b) <==> SamplePrecedes(a, b)
  {
    ThreeFields(a.refKind, a.refId, OrEmpty(a.contentHash), b.refKind, b.refId, OrEmpty(b.contentHash));
  }

  lemma OrderOmissionsExactly(a: Omission, b: Omission)
    ensures OMISSION_ORDER(a, b) <==> OmissionPrecedes(a, b)
  {
    ThreeFields(a.reasonCode, a.refKind, a.aggregateKey, b.reasonCode, b.refKind, b.aggregateKey);
  }

  lemma OrderRefsExactly(a: IncludedRef, b: IncludedRef)
    ensures REF_ORDER(a, b) <==> RefPrecedes(a, b)
  {
    var s, t := [a.refId, OrEmpty(a.contentHash), OrEmpty(a.rowHash)], [b.refId, OrEmpty(b.contentHash), OrEmpty(b.rowHash)];
    assert RefKey(a) == [a.sortKey] + ([a.refKind] + s) && RefKey(b) == [b.sortKey] + ([b.refKind] + t);
    FieldsStep(a.sortKey, [a.refKind] + s, b.sortKey, [b.refKind] + t);
    FieldsStep(a.refKind, s, b.refKind, t);
    ThreeFields(a.refId, OrEmpty(a.contentHash), OrEmpty(a.rowHash), b.refId, OrEmpty(b.contentHash), OrEmpty(b.rowHash));
  }

  /** The parts of a reference that canonicalisation rearranges: its event identifiers, which end up in rising order. */
  predicate RefTidied(before: IncludedRef, after: IncludedRef) {
    && after == before.(sourceEventIds := after.sourceEventIds)
    && multiset(after.sourceEventIds) == multiset(before.sourceEventIds)
    && forall i, j | 0 <= i < j < |after.sourceEventIds| :: TextLeq(after.sourceEventIds[i], after.sourceEventIds[j])
  }

  predicate OmissionTidied(before: Omission, after: Omission) {
    && after == before.(sampleRefs := after.sampleRefs)
    && (after.sampleRefs.Some? <==> before.sampleRefs.Some?)
    && (after.sampleRefs.Some? ==>
          && multiset(after.sampleRefs.value) == multiset(before.sampleRefs.value)
          && forall i, j | 0 <= i < j < |after.sampleRefs.value| :: SamplePrecedes(after.sampleRefs.value[i], after.sampleRefs.value[j]))
  }

  lemma NormalRefTidied(r: IncludedRef)
    ensures RefTidied(r, NormalRef(r))
  {
    TextOrderIsTotal();
    StableSortHolds(TEXT_ORDER, r.sourceEventIds);
    var ids := StableSort(TEXT_ORDER, r.sourceEventIds);
    forall i, j | 0 <= i < j < |ids| ensures TextLeq(ids[i], ids[j]) { assert TEXT_ORDER(ids[i], ids[j]); }
  }

  lemma NormalOmissionTidied(o: Omission)
    ensures OmissionTidied(o, NormalOmission(o))
  {
    if o.sampleRefs.Some? {
      OrdersAreTotal();
      StableSortHolds(SAMPLE_ORDER, o.sampleRefs.value);
      var samples := StableSort(SAMPLE_ORDER, o.sampleRefs.value);
      forall i, j | 0 <= i < j < |samples| ensures SamplePrecedes(samples[i], samples[j]) {
        assert SAMPLE_ORDER(samples[i], samples[j]);
        OrderSamplesExactly(samples[i], samples[j]);
      }
    }
  }

  /**
   What the canonical form is: the same header, and the references and omissions
   in their order, each tidied.
   */
  lemma CanonicalIsInOrder(b: Body) returns (refs: seq<IncludedRef>, omissions: seq<Omission>)
    ensures multiset(refs) == multiset(b.includedRefs) && multiset(omissions) == multiset(b.omissions)
    ensures var c := CanonicalBody(b);
            && c.header == b.header && |c.includedRefs| == |refs| && |c.omissions| == |omissions|
            && (forall k | 0 <= k < |refs| :: RefTidied(refs[k], c.includedRefs[k]))
            && (forall k | 0 <= k < |omissions| :: OmissionTidied(omissions[k], c.omissions[k]))
            && (forall i, j | 0 <= i < j < |refs| :: RefPrecedes(refs[i], refs[j]))
            && (forall i, j | 0 <= i < j < |omissions| :: OmissionPrecedes(omissions[i], omissions[j]))
  {
    OrdersAreTotal();
    StableSortHolds(REF_ORDER, b.includedRefs);
    StableSortHolds(OMISSION_ORDER, b.omissions);
    refs, omissions := StableSort(REF_ORDER, b.includedRefs), StableSort(OMISSION_ORDER, b.omissions);
    forall k | 0 <= k < |refs| ensures RefTidied(refs[k], CanonicalBody(b).includedRefs[k]) { NormalRefTidied(refs[k]); }
    forall k | 0 <= k < |omissions| ensures OmissionTidied(omissions[k], CanonicalBody(b).omissions[k]) { NormalOmissionTidied(omissions[k]); }
    forall i, j | 0 <= i < j < |refs| ensures RefPrecedes(refs[i], refs[j]) {
      assert REF_ORDER(refs[i], refs[j]);
      OrderRefsExactly(refs[i], refs[j]);
    }
    forall i, j | 0 <= i < j < |omissions| ensures OmissionPrecedes(omissions[i], omissions[j]) {
      assert OMISSION_ORDER(omissions[i], omissions[j]);
      OrderOmissionsExactly(omissions[i], omissions[j]);
    }
  }
}
