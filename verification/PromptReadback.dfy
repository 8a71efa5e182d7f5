/**
 One-shot witnesses of a mounted prompt. A witness is issued under an authority
 of its mount, may be consumed once, and dies when a newer authority for the
 same mount is created before its bytes have been reread. Creation, issuing,
 revalidation and consumption interleave at every await.
 */
module PromptReadback {
  import opened CanonicalJson
  import opened CanonicalJsonProofs

  datatype Mount = Mount(workspaceId: Text, rootDir: Text, blobRoot: Text)

  type Bytes = seq<int>

  /** What the prompt artifact says about itself, as the consumer's expectations name it. */
  datatype Facts = Facts(taskId: Text, runId: Text, runType: Text, scopeApplicabilityHash: Text, contextPackRefs: Text)

  datatype Expectations = Expectations(workspaceId: Text, facts: Facts)

  datatype Availability = Available | Consuming | Consumed

  /** The private binding of a witness; the authority is named by its position. */
  datatype Witness = Witness(authority: nat, bytes: Bytes, facts: Facts, state: Availability)

  /** A call that is under way or over. */
  datatype Call =
    | Issuing(authority: nat, bytes: Bytes)
    | Rereading(target: nat, expected: Option<Expectations>)
    | Rechecked(target: nat, expected: Option<Expectations>, current: bool)
    | Revalidating(target: nat)
    | Succeeded(target: nat)
    | Revalidated(target: nat)
    | Failed

  datatype State = State(authorities: seq<Mount>, current: map<Text, nat>, witnesses: seq<Witness>, calls: seq<Call>)

  /** parse is the verdict of the envelope parser on the bytes of a prompt artifact. */
  datatype Config = Config(parse: Bytes -> Option<Facts>)

  /** The observed mount is what the store reports as mounted now, the reread what it reads; either may fail. */
  datatype Label =
    | CreateAuthority(mount: Mount)
    | BeginIssue(authority: nat, bytes: Bytes, observed: Option<Mount>)
    | FinishIssue(call: nat, reread: Option<Bytes>, observed: Option<Mount>)
    | BeginConsume(target: nat, expected: Option<Expectations>, observed: Option<Mount>)
    | Recheck(call: nat, reread: Option<Bytes>, observed: Option<Mount>)
    | FinishConsume(call: nat)
    | BeginRevalidate(target: nat, observed: Option<Mount>)
    | FinishRevalidate(call: nat, reread: Option<Bytes>, observed: Option<Mount>)

  function MountKey(m: Mount): Text {
    Canonical(DArr([DStr(m.workspaceId), DStr(m.rootDir), DStr(m.blobRoot)]))
  }

  predicate Enabled(s: State, l: Label) {
    match l
    case CreateAuthority(_) => true
    case BeginIssue(a, _, _) => a < |s.authorities|
    case FinishIssue(c, _, _) => c < |s.calls| && s.calls[c].Issuing?
    case BeginConsume(w, _, _) => w < |s.witnesses|
    case Recheck(c, _, _) => c < |s.calls| && s.calls[c].Rereading?
    case FinishConsume(c) => c < |s.calls| && s.calls[c].Rechecked?
    case BeginRevalidate(w, _) => w < |s.witnesses|
    case FinishRevalidate(c, _, _) => c < |s.calls| && s.calls[c].Revalidating?
  }

  /** assertCurrentAuthority: the store still reports the authority's mount, and the map still names it. */
  predicate Current(s: State, authority: nat, observed: Option<Mount>) {
    && authority < |s.authorities|
    && observed == Some(s.authorities[authority])
    && MountKey(s.authorities[authority]) in s.current
    && s.current[MountKey(s.authorities[authority])] == authority
  }

  predicate ExactlyCurrent(s: State, authority: nat, bytes: Bytes, reread: Option<Bytes>, observed: Option<Mount>) {
    Current(s, authority, observed) && reread == Some(bytes)
  }

  predicate ExpectationsMet(s: State, w: Witness, expected: Option<Expectations>) {
    && w.authority < |s.authorities|
    && expected == Some(Expectations(s.authorities[w.authority].workspaceId, w.facts))
  }

  function WithCall(s: State, c: nat, call: Call): State
    requires c < |s.calls|
  {
    s.(calls := s.calls[c := call])
  }

  function Mark(s: State, w: nat, state: Availability): State
    requires w < |s.witnesses|
  {
    s.(witnesses := s.witnesses[w := s.witnesses[w].(state := state)])
  }

  function Step(config: Config, s: State, l: Label): State
    requires Enabled(s, l)
  {
    match l
    case CreateAuthority(m) =>
      s.(authorities := s.authorities + [m], current := s.current[MountKey(m) := |s.authorities|])
    case BeginIssue(a, bytes, observed) =>
      s.(calls := s.calls + [if config.parse(bytes).Some? && Current(s, a, observed) then Issuing(a, bytes) else Failed])
    case FinishIssue(c, reread, observed) =>
      var call := s.calls[c];
      if ExactlyCurrent(s, call.authority, call.bytes, reread, observed) && config.parse(call.bytes).Some? then
        WithCall(s.(witnesses := s.witnesses + [Witness(call.authority, call.bytes, config.parse(call.bytes).value, Available)]), c,
                 Revalidated(|s.witnesses|))
      else WithCall(s, c, Failed)
    case BeginConsume(w, expected, observed) =>
      if s.witnesses[w].state != Available then s.(calls := s.calls + [Failed])
      else
        Mark(s, w, Consuming).(calls := s.calls +
          [if Current(s, s.witnesses[w].authority, observed) then Rereading(w, expected) else Rechecked(w, expected, false)])
    case Recheck(c, reread, observed) =>
      var w := s.calls[c].target;
      var exact := w < |s.witnesses| && ExactlyCurrent(s, s.witnesses[w].authority, s.witnesses[w].bytes, reread, observed);
      WithCall(s, c, Rechecked(w, s.calls[c].expected, exact))
    case FinishConsume(c) =>
      var call := s.calls[c];
      if call.target >= |s.witnesses| then WithCall(s, c, Failed)
      else
        WithCall(Mark(s, call.target, Consumed), c,
                 if call.current && ExpectationsMet(s, s.witnesses[call.target], call.expected) then Succeeded(call.target) else Failed)
    case BeginRevalidate(w, observed) =>
      s.(calls := s.calls +
        [if s.witnesses[w].state == Available && Current(s, s.witnesses[w].authority, observed) then Revalidating(w) else Failed])
    case FinishRevalidate(c, reread, observed) =>
      var w := s.calls[c].target;
      var exact := w < |s.witnesses| && ExactlyCurrent(s, s.witnesses[w].authority, s.witnesses[w].bytes, reread, observed);
      WithCall(s, c, if exact then Revalidated(w) else Failed)
  }

  // ---------- The module state, updated in place ----------

  class Readbacks {
    const config: Config
    var authorities: seq<Mount>
    var currentAuthorities: map<Text, nat>
    var bindings: seq<Witness>
    var calls: seq<Call>

    function Now(): State
      reads this
    {
      State(authorities, currentAuthorities, bindings, calls)
    }

    constructor (config: Config)
      ensures this.config == config && Now() == State([], map[], [], [])
    {
      this.config := config;
      authorities, currentAuthorities, bindings, calls := [], map[], [], [];
    }

    method Create(mount: Mount) returns (authority: nat)
      modifies this
      ensures Now() == Step(config, old(Now()), CreateAuthority(mount))
      ensures authority == |old(authorities)| && Current(Now(), authority, Some(mount))
    {
      authority := |authorities|;
      authorities := authorities + [mount];
      currentAuthorities := currentAuthorities[MountKey(mount) := authority];
    }

    /** The part of a consumption before its first await: the reservation and the first check. */
    method ReserveForConsumption(w: nat, expected: Option<Expectations>, observed: Option<Mount>) returns (call: nat)
      requires w < |bindings|
      modifies this
      ensures Now() == Step(config, old(Now()), BeginConsume(w, expected, observed)) && call == |old(calls)|
    {
      call := |calls|;
      if bindings[w].state != Available {
        calls := calls + [Failed];
        return;
      }
      bindings := bindings[w := bindings[w].(state := Consuming)];
      if Current(Now(), bindings[w].authority, observed) {
        calls := calls + [Rereading(w, expected)];
      } else {
        calls := calls + [Rechecked(w, expected, false)];
      }
    }

    method RecheckAfterReread(call: nat, reread: Option<Bytes>, observed: Option<Mount>)
      requires Enabled(Now(), Recheck(call, reread, observed))
      modifies this
      ensures Now() == Step(config, old(Now()), Recheck(call, reread, observed))
    {
      var w := calls[call].target;
      var exact := w < |bindings| && ExactlyCurrent(Now(), bindings[w].authority, bindings[w].bytes, reread, observed);
      calls := calls[call := Rechecked(w, calls[call].expected, exact)];
    }

    /** The end of a consumption; the finally block marks the witness consumed whatever came out. */
    method CompleteConsumption(call: nat) returns (consumed: Option<Witness>)
      requires Enabled(Now(), FinishConsume(call)) && calls[call].target < |bindings|
      modifies this
      ensures Now() == Step(config, old(Now()), FinishConsume(call))
      ensures consumed.Some? <==> calls[call].Succeeded?
      ensures consumed.Some? ==> consumed.value == old(bindings[calls[call].target])
    {
      var w := calls[call].target;
      var binding := bindings[w];
      var success := calls[call].current && ExpectationsMet(Now(), binding, calls[call].expected);
      bindings := bindings[w := binding.(state := Consumed)];
      calls := calls[call := if success then Succeeded(w) else Failed];
      return if success then Some(binding) else None;
    }
  }

  // ---------- Authorities ----------

  /** The text that keys the map of authorities tells mounts apart. */
  lemma MountKeyTells(m: Mount, n: Mount)
    requires MountKey(m) == MountKey(n)
    ensures m == n
  {
    var d, e := DArr([DStr(m.workspaceId), DStr(m.rootDir), DStr(m.blobRoot)]), DArr([DStr(n.workspaceId), DStr(n.rootDir), DStr(n.blobRoot)]);
    SameCanonicalIsSameValue(d, e);
    assert Meaning(d).items[0] == Str(m.workspaceId) && Meaning(e).items[0] == Str(n.workspaceId);
    assert Meaning(d).items[1] == Str(m.rootDir) && Meaning(e).items[1] == Str(n.rootDir);
    assert Meaning(d).items[2] == Str(m.blobRoot) && Meaning(e).items[2] == Str(n.blobRoot);
  }

  /** No authority for the same mount has been created after this one. */
  predicate Latest(s: State, a: nat)
    requires a < |s.authorities|
  {
    forall b | a < b < |s.authorities| :: s.authorities[b] != s.authorities[a]
  }

  predicate AuthoritiesOk(s: State) {
    && (forall a | 0 <= a < |s.authorities| :: MountKey(s.authorities[a]) in s.current)
    && (forall k | k in s.current ::
          s.current[k] < |s.authorities| && MountKey(s.authorities[s.current[k]]) == k && Latest(s, s.current[k]))
  }

  /** The map names an authority exactly when it is the latest of its mount. */
  lemma CurrentIsLatest(s: State, a: nat, observed: Option<Mount>)
    requires AuthoritiesOk(s) && a < |s.authorities|
    ensures Current(s, a, observed) <==> observed == Some(s.authorities[a]) && Latest(s, a)
  {
    var b := s.current[MountKey(s.authorities[a])];
    MountKeyTells(s.authorities[a], s.authorities[b]);
    if Latest(s, a) { LatestIsOne(s, a, b); }
  }

  lemma LatestIsOne(s: State, a: nat, b: nat)
    requires a < |s.authorities| && b < |s.authorities| && s.authorities[a] == s.authorities[b]
    requires Latest(s, a) && Latest(s, b)
    ensures a == b
  {
  }

  lemma CreateKeepsAuthorities(config: Config, s: State, m: Mount)
    requires AuthoritiesOk(s)
    ensures AuthoritiesOk(Step(config, s, CreateAuthority(m)))
  {
    var t := Step(config, s, CreateAuthority(m));
    forall k | k in t.current
      ensures t.current[k] < |t.authorities| && MountKey(t.authorities[t.current[k]]) == k && Latest(t, t.current[k])
    {
      if k != MountKey(m) {
        forall b | t.current[k] < b < |t.authorities| ensures t.authorities[b] != t.authorities[t.current[k]] {
          if b < |s.authorities| { assert Latest(s, s.current[k]); }
        }
      }
    }
  }

  // ---------- The invariant ----------

  predicate Takes(c: Call, w: nat) {
    (c.Rereading? || c.Rechecked? || c.Succeeded?) && c.target == w
  }

  predicate Holding(c: Call, w: nat) {
    (c.Rereading? || c.Rechecked?) && c.target == w
  }

  predicate CallOk(s: State, c: Call) {
    match c
    case Issuing(a, _) => a < |s.authorities|
    case Rereading(w, _) => w < |s.witnesses| && s.witnesses[w].state == Consuming
    case Rechecked(w, _, _) => w < |s.witnesses| && s.witnesses[w].state == Consuming
    case Revalidating(w) => w < |s.witnesses|
    case Succeeded(w) => w < |s.witnesses| && s.witnesses[w].state == Consumed
    case Revalidated(w) => w < |s.witnesses|
    case Failed => true
  }

  /** At most one call has ever got hold of a witness. */
  predicate OneTaker(s: State) {
    forall i, j | 0 <= i < j < |s.calls| :: !((s.calls[i].Rereading? || s.calls[i].Rechecked? || s.calls[i].Succeeded?)
                                             && Takes(s.calls[j], s.calls[i].target))
  }

  predicate Invariant(s: State) {
    && AuthoritiesOk(s)
    && (forall w | w in s.witnesses :: w.authority < |s.authorities|)
    && (forall c | c in s.calls :: CallOk(s, c))
    && OneTaker(s)
  }

  /** Steps that touch nothing but their own call, and take no witness that they do not hold already. */
  lemma CallsKeep(config: Config, s: State, l: Label)
    requires Invariant(s) && Enabled(s, l)
    requires l.BeginIssue? || l.Recheck? || l.BeginRevalidate? || l.FinishRevalidate?
    ensures Invariant(Step(config, s, l))
  {
    var t := Step(config, s, l);
    if l.Recheck? || l.FinishRevalidate? { assert CallOk(s, s.calls[l.call]); }
    forall d | d in t.calls ensures CallOk(t, d) {
      var k :| 0 <= k < |t.calls| && t.calls[k] == d;
      assert k < |s.calls| && t.calls[k] == s.calls[k] ==> CallOk(s, d);
    }
  }

  lemma ConsumeKeeps(config: Config, s: State, w: nat, expected: Option<Expectations>, observed: Option<Mount>)
    requires Invariant(s) && Enabled(s, BeginConsume(w, expected, observed))
    ensures Invariant(Step(config, s, BeginConsume(w, expected, observed)))
  {
    var t := Step(config, s, BeginConsume(w, expected, observed));
    forall k | 0 <= k < |s.calls| && Takes(s.calls[k], w) ensures s.witnesses[w].state != Available {
      assert CallOk(s, s.calls[k]);
    }
    forall d | d in t.calls ensures CallOk(t, d) {
      var k :| 0 <= k < |t.calls| && t.calls[k] == d;
      assert k < |s.calls| ==> CallOk(s, d);
    }
  }

  lemma StepKeeps(config: Config, s: State, l: Label)
    requires Invariant(s) && Enabled(s, l)
    ensures Invariant(Step(config, s, l))
  {
    match l
    case CreateAuthority(m) => CreateKeepsAuthorities(config, s, m);
    case FinishIssue(c, reread, observed) => IssueKeeps(config, s, c, reread, observed);
    case BeginConsume(w, expected, observed) => ConsumeKeeps(config, s, w, expected, observed);
    case FinishConsume(c) => FinishKeeps(config, s, c);
    case BeginIssue(_, _, _) => CallsKeep(config, s, l);
    case Recheck(_, _, _) => CallsKeep(config, s, l);
    case BeginRevalidate(_, _) => CallsKeep(config, s, l);
    case FinishRevalidate(_, _, _) => CallsKeep(config, s, l);
  }

  lemma IssueKeeps(config: Config, s: State, c: nat, reread: Option<Bytes>, observed: Option<Mount>)
    requires Invariant(s) && Enabled(s, FinishIssue(c, reread, observed))
    ensures Invariant(Step(config, s, FinishIssue(c, reread, observed)))
  {
    var t := Step(config, s, FinishIssue(c, reread, observed));
    assert s.calls[c] in s.calls;
    forall d | d in t.calls ensures CallOk(t, d) {
      var k :| 0 <= k < |t.calls| && t.calls[k] == d;
      if k != c { assert d in s.calls && CallOk(s, d); }
    }
  }

  lemma FinishKeeps(config: Config, s: State, c: nat)
    requires Invariant(s) && Enabled(s, FinishConsume(c))
    ensures Invariant(Step(config, s, FinishConsume(c)))
  {
    var t := Step(config, s, FinishConsume(c));
    assert s.calls[c] in s.calls;
    forall d | d in t.calls ensures CallOk(t, d) {
      var k :| 0 <= k < |t.calls| && t.calls[k] == d;
      if k != c {
        assert d in s.calls;
        assert !Holding(d, s.calls[c].target);
      }
    }
  }

  predicate Run(config: Config, ws: seq<State>, ls: seq<Label>) {
    && |ws| == |ls| + 1
    && ws[0] == State([], map[], [], [])
    && forall i | 0 <= i < |ls| :: Enabled(ws[i], ls[i]) && ws[i + 1] == Step(config, ws[i], ls[i])
  }

  lemma {:induction false} RunKeeps(config: Config, ws: seq<State>, ls: seq<Label>, n: nat)
    requires Run(config, ws, ls) && n < |ws|
    ensures Invariant(ws[n])
  {
    if n > 0 {
      RunKeeps(config, ws, ls, n - 1);
      StepKeeps(config, ws[n - 1], ls[n - 1]);
    }
  }

  // ---------- Main results ----------

  /** Witnesses and authorities are only ever added; a witness that was taken stays taken. */
  lemma StepGrows(config: Config, s: State, l: Label, w: nat)
    requires Enabled(s, l) && w < |s.witnesses|
    ensures var t := Step(config, s, l);
            && s.authorities <= t.authorities && w < |t.witnesses|
            && t.witnesses[w] == s.witnesses[w].(state := t.witnesses[w].state)
            && (s.witnesses[w].state != Available ==> t.witnesses[w].state != Available)
  {
  }

  lemma {:induction false} TakenStaysTaken(config: Config, ws: seq<State>, ls: seq<Label>, i: nat, n: nat, w: nat)
    requires Run(config, ws, ls) && i <= n < |ws| && w < |ws[i].witnesses|
    ensures w < |ws[n].witnesses| && ws[n].witnesses[w] == ws[i].witnesses[w].(state := ws[n].witnesses[w].state)
    ensures ws[i].witnesses[w].state != Available ==> ws[n].witnesses[w].state != Available
    ensures ws[i].authorities <= ws[n].authorities
    decreases n
  {
    if i < n {
      TakenStaysTaken(config, ws, ls, i, n - 1, w);
      StepGrows(config, ws[n - 1], ls[n - 1], w);
    }
  }

  /** Any attempt is terminal: once a consumption of the witness has begun, every later one fails at once. */
  lemma AttemptIsTerminal(config: Config, ws: seq<State>, ls: seq<Label>, i: nat, j: nat)
    requires Run(config, ws, ls) && i < j < |ls| && ls[i].BeginConsume? && ls[j].BeginConsume? && ls[i].target == ls[j].target
    ensures ws[j + 1].calls == ws[j].calls + [Failed] && ws[j + 1].witnesses == ws[j].witnesses
  {
    var w := ls[i].target;
    assert Enabled(ws[i], ls[i]) && ws[i + 1] == Step(config, ws[i], ls[i]);
    assert Enabled(ws[j], ls[j]) && ws[j + 1] == Step(config, ws[j], ls[j]);
    TakenStaysTaken(config, ws, ls, i + 1, j, w);
  }

  /** At most one consumption per witness ever succeeds, whatever interleaves. */
  lemma ConsumedAtMostOnce(config: Config, ws: seq<State>, ls: seq<Label>, n: nat, c: nat, d: nat)
    requires Run(config, ws, ls) && n < |ws| && c < |ws[n].calls| && d < |ws[n].calls|
    requires ws[n].calls[c].Succeeded? && ws[n].calls[d] == ws[n].calls[c]
    ensures c == d
  {
    RunKeeps(config, ws, ls, n);
    var w := ws[n].calls[c].target;
    assert Takes(ws[n].calls[c], w) && Takes(ws[n].calls[d], w);
  }

  /** The call has passed its second check, or has succeeded. */
  predicate Passed(c: Call, w: nat) {
    c == Succeeded(w) || (c.Rechecked? && c.target == w && c.current)
  }

  /** Step j reread exactly the witness's bytes under its mount while its authority was the latest of that mount. */
  predicate CheckedAt(ws: seq<State>, ls: seq<Label>, j: nat, c: nat, w: nat)
    requires j < |ls| && j < |ws|
  {
    && ls[j].Recheck? && ls[j].call == c
    && w < |ws[j].witnesses| && ws[j].witnesses[w].authority < |ws[j].authorities|
    && ls[j].reread == Some(ws[j].witnesses[w].bytes)
    && ls[j].observed == Some(ws[j].authorities[ws[j].witnesses[w].authority])
    && Latest(ws[j], ws[j].witnesses[w].authority)
  }

  /**
   A successful consumption was preceded by a recheck in that very call, which
   found the authority still the latest of its mount and the bytes unchanged.
   */
  lemma {:induction false} SuccessWasChecked(config: Config, ws: seq<State>, ls: seq<Label>, n: nat, c: nat, w: nat)
    requires Run(config, ws, ls) && n < |ws| && c < |ws[n].calls| && Passed(ws[n].calls[c], w)
    ensures exists j :: 0 <= j < n && CheckedAt(ws, ls, j, c, w)
  {
    var s, l := ws[n - 1], ls[n - 1];
    assert Enabled(s, l) && ws[n] == Step(config, s, l);
    if c < |s.calls| && Passed(s.calls[c], w) {
      SuccessWasChecked(config, ws, ls, n - 1, c, w);
    } else {
      RunKeeps(config, ws, ls, n - 1);
      PassingStep(config, s, l, c, w);
      assert CheckedAt(ws, ls, n - 1, c, w);
    }
  }

  lemma PassingStep(config: Config, s: State, l: Label, c: nat, w: nat)
    requires Invariant(s) && Enabled(s, l)
    requires c < |s.calls| ==> !Passed(s.calls[c], w)
    requires c < |Step(config, s, l).calls| && Passed(Step(config, s, l).calls[c], w)
    ensures l.Recheck? && l.call == c && w < |s.witnesses| && s.witnesses[w].authority < |s.authorities|
    ensures l.reread == Some(s.witnesses[w].bytes) && l.observed == Some(s.authorities[s.witnesses[w].authority])
    ensures Latest(s, s.witnesses[w].authority)
  {
    if l.Recheck? && w < |s.witnesses| {
      assert s.witnesses[w] in s.witnesses;
      CurrentIsLatest(s, s.witnesses[w].authority, l.observed);
    }
  }

  lemma StaleSince(config: Config, ws: seq<State>, ls: seq<Label>, i: nat, n: nat, w: nat)
    requires Run(config, ws, ls) && i < n < |ws| && w < |ws[i].witnesses| && ws[i].witnesses[w].authority < |ws[i].authorities|
    requires ls[i] == CreateAuthority(ws[i].authorities[ws[i].witnesses[w].authority])
    ensures w < |ws[n].witnesses| && ws[n].witnesses[w].authority < |ws[n].authorities|
    ensures !Latest(ws[n], ws[n].witnesses[w].authority)
  {
    assert Enabled(ws[i], ls[i]) && ws[i + 1] == Step(config, ws[i], ls[i]);
    TakenStaysTaken(config, ws, ls, i + 1, n, w);
    NotLatestAfter(config, ws[i], ws[n], w);
  }

  /**
   A newer authority for the mount kills every older witness: a consumption that
   had not passed its second check when the newer one was created never succeeds.
   */
  lemma {:induction false} NewerAuthorityKills(config: Config, ws: seq<State>, ls: seq<Label>, i: nat, n: nat, c: nat, w: nat)
    requires Run(config, ws, ls) && i < n < |ws| && w < |ws[i].witnesses| && ws[i].witnesses[w].authority < |ws[i].authorities|
    requires ls[i] == CreateAuthority(ws[i].authorities[ws[i].witnesses[w].authority])
    requires c < |ws[i].calls| ==> !Passed(ws[i].calls[c], w)
    ensures c < |ws[n].calls| ==> !Passed(ws[n].calls[c], w)
    decreases n
  {
    if i < n - 1 {
      NewerAuthorityKills(config, ws, ls, i, n - 1, c, w);
      StaleSince(config, ws, ls, i, n - 1, w);
      StaleRunStep(config, ws, ls, n - 1, c, w);
    } else {
      CreationPassesNobody(config, ws, ls, i, c, w);
    }
  }

  lemma StaleRunStep(config: Config, ws: seq<State>, ls: seq<Label>, k: nat, c: nat, w: nat)
    requires Run(config, ws, ls) && k < |ls|
    requires w < |ws[k].witnesses| && ws[k].witnesses[w].authority < |ws[k].authorities|
    requires !Latest(ws[k], ws[k].witnesses[w].authority)
    requires c < |ws[k].calls| ==> !Passed(ws[k].calls[c], w)
    ensures c < |ws[k + 1].calls| ==> !Passed(ws[k + 1].calls[c], w)
  {
    RunKeeps(config, ws, ls, k);
    var s, l := ws[k], ls[k];
    assert Enabled(s, l) && ws[k + 1] == Step(config, s, l);
    StaleNeverPasses(config, s, l, c, w);
  }

  lemma CreationPassesNobody(config: Config, ws: seq<State>, ls: seq<Label>, k: nat, c: nat, w: nat)
    requires Run(config, ws, ls) && k < |ls| && ls[k].CreateAuthority?
    requires c < |ws[k].calls| ==> !Passed(ws[k].calls[c], w)
    ensures c < |ws[k + 1].calls| ==> !Passed(ws[k + 1].calls[c], w)
  {
    assert ws[k + 1] == Step(config, ws[k], ls[k]);
  }

  lemma StaleNeverPasses(config: Config, s: State, l: Label, c: nat, w: nat)
    requires Invariant(s) && Enabled(s, l)
    requires w < |s.witnesses| && s.witnesses[w].authority < |s.authorities| && !Latest(s, s.witnesses[w].authority)
    requires c < |s.calls| ==> !Passed(s.calls[c], w)
    ensures c < |Step(config, s, l).calls| ==> !Passed(Step(config, s, l).calls[c], w)
  {
    if c < |Step(config, s, l).calls| && Passed(Step(config, s, l).calls[c], w) {
      PassingStep(config, s, l, c, w);
    }
  }

  lemma NotLatestAfter(config: Config, before: State, s: State, w: nat)
    requires w < |before.witnesses| && w < |s.witnesses| && s.witnesses[w].authority == before.witnesses[w].authority
    requires before.witnesses[w].authority < |before.authorities|
    requires before.authorities + [before.authorities[before.witnesses[w].authority]] <= s.authorities
    ensures !Latest(s, s.witnesses[w].authority)
  {
    assert s.authorities[|before.authorities|] == s.authorities[s.witnesses[w].authority];
  }

  /** A call that has been rechecked only ends, and one that has ended stays as it is. */
  lemma RecheckedStays(config: Config, s: State, l: Label, c: nat)
    requires Enabled(s, l) && c < |s.calls| && (s.calls[c].Rechecked? || s.calls[c].Succeeded? || s.calls[c].Failed?)
    ensures var t := Step(config, s, l);
            c < |t.calls| && (t.calls[c] == s.calls[c] || (s.calls[c].Rechecked? && (t.calls[c].Succeeded? || t.calls[c].Failed?)))
  {
  }

  lemma {:induction false} RecheckedUntilFinished(config: Config, ws: seq<State>, ls: seq<Label>, i: nat, n: nat, c: nat)
    requires Run(config, ws, ls) && i <= n < |ws| && c < |ws[i].calls|
    requires ws[i].calls[c].Rechecked? || ws[i].calls[c].Succeeded? || ws[i].calls[c].Failed?
    ensures c < |ws[n].calls|
    ensures ws[n].calls[c] == ws[i].calls[c] || (ws[i].calls[c].Rechecked? && (ws[n].calls[c].Succeeded? || ws[n].calls[c].Failed?))
    decreases n
  {
    if i < n {
      RecheckedUntilFinished(config, ws, ls, i, n - 1, c);
      assert Enabled(ws[n - 1], ls[n - 1]) && ws[n] == Step(config, ws[n - 1], ls[n - 1]);
      RecheckedStays(config, ws[n - 1], ls[n - 1], c);
    }
  }

  /**
   What a newer authority does to a consumption of an older witness, exactly: a
   consumption that finishes after the creation, with expectations that name the
   witness,
   succeeds if and only if it had passed its recheck when the authority was
   created.
   */
  lemma NewerAuthorityDecides(config: Config, ws: seq<State>, ls: seq<Label>, i: nat, k: nat, c: nat, w: nat)
    requires Run(config, ws, ls) && i < k < |ls| && w < |ws[i].witnesses| && ws[i].witnesses[w].authority < |ws[i].authorities|
    requires ls[i] == CreateAuthority(ws[i].authorities[ws[i].witnesses[w].authority])
    requires ls[k] == FinishConsume(c) && c < |ws[k].calls| && ws[k].calls[c].Rechecked? && ws[k].calls[c].target == w
    requires NamesTheWitness(config, ws[k], w, ws[k].calls[c].expected)
    ensures c < |ws[k + 1].calls|
    ensures ws[k + 1].calls[c] == Succeeded(w) <==> c < |ws[i].calls| && Passed(ws[i].calls[c], w)
  {
    assert Enabled(ws[k], ls[k]) && ws[k + 1] == Step(config, ws[k], ls[k]);
    RunReadsFacts(config, ws, ls, k);
    NamingIsMeeting(config, ws[k], w, ws[k].calls[c].expected);
    FinishDecides(config, ws[k], c);
    if c < |ws[i].calls| && Passed(ws[i].calls[c], w) {
      RecheckedUntilFinished(config, ws, ls, i, k, c);
    } else {
      NewerAuthorityKills(config, ws, ls, i, k + 1, c, w);
    }
  }

  /** With its expectations met a consumption succeeds exactly when its recheck did. */
  lemma FinishDecides(config: Config, s: State, c: nat)
    requires Enabled(s, FinishConsume(c)) && s.calls[c].target < |s.witnesses|
    requires ExpectationsMet(s, s.witnesses[s.calls[c].target], s.calls[c].expected)
    ensures Step(config, s, FinishConsume(c)).calls[c] == Succeeded(s.calls[c].target) <==> s.calls[c].current
  {
  }

  /** A run of one mounted prompt, in which a second authority is created between the recheck and the return. */
  function LateRun(m: Mount, bytes: Bytes, facts: Facts): seq<Label> {
    [CreateAuthority(m), BeginIssue(0, bytes, Some(m)), FinishIssue(0, Some(bytes), Some(m)),
     BeginConsume(0, Some(Expectations(m.workspaceId, facts)), Some(m)), Recheck(1, Some(bytes), Some(m)),
     CreateAuthority(m), FinishConsume(1)]
  }

  /**
   The recheck is the last word: an authority created after it, before the call
   has returned, does not stop the consumption.
   */
  lemma LaterAuthorityIsTooLate(config: Config, m: Mount, bytes: Bytes, facts: Facts)
    requires config.parse(bytes) == Some(facts)
    ensures exists ws: seq<State> :: Run(config, ws, LateRun(m, bytes, facts)) && ConsumedThoughStale(ws[7])
  {
    var ls := LateRun(m, bytes, facts);
    var expected := Some(Expectations(m.workspaceId, facts));
    var key := MountKey(m);
    var w0 := State([], map[], [], []);
    var w1 := State([m], map[key := 0], [], []);
    var w2 := State([m], map[key := 0], [], [Issuing(0, bytes)]);
    var w3 := State([m], map[key := 0], [Witness(0, bytes, facts, Available)], [Revalidated(0)]);
    var w4 := State([m], map[key := 0], [Witness(0, bytes, facts, Consuming)], [Revalidated(0), Rereading(0, expected)]);
    var w5 := State([m], map[key := 0], [Witness(0, bytes, facts, Consuming)], [Revalidated(0), Rechecked(0, expected, true)]);
    var w6 := State([m, m], map[key := 1], [Witness(0, bytes, facts, Consuming)], [Revalidated(0), Rechecked(0, expected, true)]);
    var w7 := State([m, m], map[key := 1], [Witness(0, bytes, facts, Consumed)], [Revalidated(0), Succeeded(0)]);
    IssuedFirst(config, m, bytes, facts);
    ConsumedThen(config, m, bytes, facts);
    var ws := [w0, w1, w2, w3, w4, w5, w6, w7];
    assert Run(config, ws, ls);
    assert w7.authorities[1] == w7.authorities[0];
  }

  /** The second call has consumed the first witness, though its authority is no longer the latest. */
  predicate ConsumedThoughStale(s: State) {
    && s.calls == [Revalidated(0), Succeeded(0)] && |s.witnesses| == 1 && s.witnesses[0].authority == 0
    && |s.authorities| == 2 && !Latest(s, 0)
  }

  lemma IssuedFirst(config: Config, m: Mount, bytes: Bytes, facts: Facts)
    requires config.parse(bytes) == Some(facts)
    ensures var w1 := State([m], map[MountKey(m) := 0], [], []);
            var w2 := w1.(calls := [Issuing(0, bytes)]);
            && Enabled(w1, BeginIssue(0, bytes, Some(m))) && Enabled(w2, FinishIssue(0, Some(bytes), Some(m)))
            && Step(config, State([], map[], [], []), CreateAuthority(m)) == w1
            && Step(config, w1, BeginIssue(0, bytes, Some(m))) == w2
            && Step(config, w2, FinishIssue(0, Some(bytes), Some(m))) ==
               State([m], map[MountKey(m) := 0], [Witness(0, bytes, facts, Available)], [Revalidated(0)])
  {
  }

  lemma ConsumedThen(config: Config, m: Mount, bytes: Bytes, facts: Facts)
    ensures var expected := Some(Expectations(m.workspaceId, facts));
            var w3 := State([m], map[MountKey(m) := 0], [Witness(0, bytes, facts, Available)], [Revalidated(0)]);
            var w4 := State([m], map[MountKey(m) := 0], [Witness(0, bytes, facts, Consuming)], [Revalidated(0), Rereading(0, expected)]);
            var w5 := w4.(calls := [Revalidated(0), Rechecked(0, expected, true)]);
            var w6 := State([m, m], map[MountKey(m) := 1], w5.witnesses, w5.calls);
            && Enabled(w3, BeginConsume(0, expected, Some(m))) && Enabled(w4, Recheck(1, Some(bytes), Some(m))) && Enabled(w6, FinishConsume(1))
            && Step(config, w3, BeginConsume(0, expected, Some(m))) == w4
            && Step(config, w4, Recheck(1, Some(bytes), Some(m))) == w5
            && Step(config, w5, CreateAuthority(m)) == w6
            && Step(config, w6, FinishConsume(1)) ==
               State([m, m], map[MountKey(m) := 1], [Witness(0, bytes, facts, Consumed)], [Revalidated(0), Succeeded(0)])
  {
  }

  // ---------- What a consumption takes, exactly ----------

  /** The store reports the mount of the witness's authority, and no newer authority of that mount exists. */
  predicate MountedNow(s: State, w: nat, observed: Option<Mount>) {
    && w < |s.witnesses| && s.witnesses[w].authority < |s.authorities|
    && observed == Some(s.authorities[s.witnesses[w].authority])
    && forall b | s.witnesses[w].authority < b < |s.authorities| :: s.authorities[b] != s.authorities[s.witnesses[w].authority]
  }

  /** At step j, after step i, the call rereads exactly the witness's bytes while its mount is as it should be. */
  predicate RereadExactly(ws: seq<State>, ls: seq<Label>, i: nat, n: nat, c: nat, w: nat)
    requires n <= |ls| < |ws|
  {
    exists j :: i < j < n && ls[j].Recheck? && ls[j].call == c && MountedNow(ws[j], w, ls[j].observed)
                && ls[j].reread == Some(ws[j].witnesses[w].bytes)
  }

  /** The expectations name the workspace of the witness's mount and what the parser reads from its bytes, and nothing else. */
  predicate NamesTheWitness(config: Config, s: State, w: nat, expected: Option<Expectations>) {
    && w < |s.witnesses| && s.witnesses[w].authority < |s.authorities|
    && expected.Some? && expected.value.workspaceId == s.authorities[s.witnesses[w].authority].workspaceId
    && config.parse(s.witnesses[w].bytes) == Some(expected.value.facts)
  }

  /** Every witness carries the facts that the parser reads from its bytes, under an authority that exists. */
  predicate FactsRead(config: Config, s: State) {
    forall w | w in s.witnesses :: config.parse(w.bytes) == Some(w.facts) && w.authority < |s.authorities|
  }

  lemma {:induction false} RunReadsFacts(config: Config, ws: seq<State>, ls: seq<Label>, n: nat)
    requires Run(config, ws, ls) && n < |ws|
    ensures FactsRead(config, ws[n])
  {
    if n > 0 {
      RunReadsFacts(config, ws, ls, n - 1);
      RunKeeps(config, ws, ls, n - 1);
      FactsReadStep(config, ws[n - 1], ls[n - 1]);
    }
  }

  lemma FactsReadStep(config: Config, s: State, l: Label)
    requires FactsRead(config, s) && Invariant(s) && Enabled(s, l)
    ensures FactsRead(config, Step(config, s, l))
  {
    if l.FinishIssue? { assert CallOk(s, s.calls[l.call]); }
  }

  lemma MountedIsCurrent(s: State, w: nat, observed: Option<Mount>)
    requires Invariant(s) && w < |s.witnesses|
    ensures Current(s, s.witnesses[w].authority, observed) <==> MountedNow(s, w, observed)
  {
    assert s.witnesses[w] in s.witnesses;
    CurrentIsLatest(s, s.witnesses[w].authority, observed);
  }

  lemma NamingIsMeeting(config: Config, s: State, w: nat, expected: Option<Expectations>)
    requires FactsRead(config, s) && w < |s.witnesses|
    ensures ExpectationsMet(s, s.witnesses[w], expected) <==> NamesTheWitness(config, s, w, expected)
  {
    assert s.witnesses[w] in s.witnesses;
  }

  /** Where a consumption stands: whether it was let in, whether the mount was right at its start, and whether it has reread. */
  predicate Stands(call: Call, w: nat, expected: Option<Expectations>, admitted: bool, mounted: bool, reread: bool, named: bool) {
    match call
    case Rereading(v, e) => v == w && e == expected && admitted && mounted && !reread
    case Rechecked(v, e, current) => v == w && e == expected && admitted && current == (mounted && reread)
    case Succeeded(v) => v == w && admitted && mounted && reread && named
    case Failed => !(admitted && mounted && reread && named)
    case _ => false
  }

  lemma StandsAtFirst(config: Config, s: State, w: nat, expected: Option<Expectations>, observed: Option<Mount>, named: bool)
    requires Invariant(s) && Enabled(s, BeginConsume(w, expected, observed))
    ensures var t := Step(config, s, BeginConsume(w, expected, observed));
            && |t.calls| == |s.calls| + 1
            && Stands(t.calls[|s.calls|], w, expected, s.witnesses[w].state == Available, MountedNow(s, w, observed), false, named)
  {
    MountedIsCurrent(s, w, observed);
  }

  lemma StandsStep(config: Config, s: State, l: Label, c: nat, w: nat, expected: Option<Expectations>, admitted: bool, mounted: bool, reread: bool)
    requires Invariant(s) && FactsRead(config, s) && Enabled(s, l) && c < |s.calls| && w < |s.witnesses|
    requires Stands(s.calls[c], w, expected, admitted, mounted, reread, NamesTheWitness(config, s, w, expected))
    ensures var t := Step(config, s, l);
            var now := l.Recheck? && l.call == c && MountedNow(s, w, l.observed) && l.reread == Some(s.witnesses[w].bytes);
            && c < |t.calls|
            && Stands(t.calls[c], w, expected, admitted, mounted, reread || now, NamesTheWitness(config, s, w, expected))
  {
    if l.Recheck? && l.call == c { MountedIsCurrent(s, w, l.observed); }
    NamingIsMeeting(config, s, w, expected);
  }

  lemma NamesStay(config: Config, s: State, t: State, w: nat, expected: Option<Expectations>)
    requires w < |s.witnesses| && w < |t.witnesses| && t.witnesses[w] == s.witnesses[w].(state := t.witnesses[w].state)
    requires s.authorities <= t.authorities && s.witnesses[w].authority < |s.authorities|
    ensures NamesTheWitness(config, s, w, expected) <==> NamesTheWitness(config, t, w, expected)
  {
  }

  lemma RereadStep(ws: seq<State>, ls: seq<Label>, i: nat, n: nat, c: nat, w: nat)
    requires i < n < |ls| < |ws|
    ensures RereadExactly(ws, ls, i, n + 1, c, w) <==>
            RereadExactly(ws, ls, i, n, c, w)
            || (ls[n].Recheck? && ls[n].call == c && MountedNow(ws[n], w, ls[n].observed) && ls[n].reread == Some(ws[n].witnesses[w].bytes))
  {
    if j :| i < j < n + 1 && ls[j].Recheck? && ls[j].call == c && MountedNow(ws[j], w, ls[j].observed)
            && ls[j].reread == Some(ws[j].witnesses[w].bytes) {
      assert j == n || j < n;
    }
  }

  lemma RunStep(config: Config, ws: seq<State>, ls: seq<Label>, k: nat)
    requires Run(config, ws, ls) && k < |ls|
    ensures Enabled(ws[k], ls[k]) && ws[k + 1] == Step(config, ws[k], ls[k])
  {
  }

  /** Where the consumption that began at step i stands at moment n. */
  predicate StandsSince(
      config: Config, ws: seq<State>, ls: seq<Label>, i: nat, n: nat, c: nat, w: nat, expected: Option<Expectations>, observed: Option<Mount>)
    requires i < n <= |ls| < |ws| && w < |ws[i].witnesses|
  {
    && c < |ws[n].calls|
    && Stands(ws[n].calls[c], w, expected, ws[i].witnesses[w].state == Available, MountedNow(ws[i], w, observed),
              RereadExactly(ws, ls, i, n, c, w), NamesTheWitness(config, ws[i], w, expected))
  }

  /** The witness itself stays what it was, so the expectations name it later as they did before. */
  lemma WitnessStays(config: Config, ws: seq<State>, ls: seq<Label>, i: nat, n: nat, w: nat, expected: Option<Expectations>)
    requires Run(config, ws, ls) && i <= n < |ws| && w < |ws[i].witnesses|
    ensures w < |ws[n].witnesses| && (NamesTheWitness(config, ws[i], w, expected) <==> NamesTheWitness(config, ws[n], w, expected))
  {
    TakenStaysTaken(config, ws, ls, i, n, w);
    RunReadsFacts(config, ws, ls, i);
    assert ws[i].witnesses[w] in ws[i].witnesses;
    NamesStay(config, ws[i], ws[n], w, expected);
  }

  lemma StandsRunStep(
      config: Config, ws: seq<State>, ls: seq<Label>, i: nat, n: nat, c: nat, w: nat, expected: Option<Expectations>, observed: Option<Mount>)
    requires Run(config, ws, ls) && i < n < |ls| && w < |ws[i].witnesses|
    requires StandsSince(config, ws, ls, i, n, c, w, expected, observed)
    ensures StandsSince(config, ws, ls, i, n + 1, c, w, expected, observed)
  {
    RunStep(config, ws, ls, n);
    RunKeeps(config, ws, ls, n);
    RunReadsFacts(config, ws, ls, n);
    WitnessStays(config, ws, ls, i, n, w, expected);
    StandsStep(config, ws[n], ls[n], c, w, expected, ws[i].witnesses[w].state == Available, MountedNow(ws[i], w, observed),
               RereadExactly(ws, ls, i, n, c, w));
    RereadStep(ws, ls, i, n, c, w);
  }

  lemma {:induction false} ConsumptionStands(
      config: Config, ws: seq<State>, ls: seq<Label>, i: nat, n: nat, c: nat, w: nat, expected: Option<Expectations>, observed: Option<Mount>)
    requires Run(config, ws, ls) && i < n < |ws| && ls[i] == BeginConsume(w, expected, observed) && c == |ws[i].calls|
    ensures w < |ws[i].witnesses| && StandsSince(config, ws, ls, i, n, c, w, expected, observed)
    decreases n
  {
    if i == n - 1 {
      RunStep(config, ws, ls, i);
      RunKeeps(config, ws, ls, i);
      StandsAtFirst(config, ws[i], w, expected, observed, NamesTheWitness(config, ws[i], w, expected));
    } else {
      ConsumptionStands(config, ws, ls, i, n - 1, c, w, expected, observed);
      StandsRunStep(config, ws, ls, i, n - 1, c, w, expected, observed);
    }
  }

  /**
   In every run a consumption that is over has succeeded exactly when the witness
   was available at its start, its mount was as it should be then, its bytes were
   reread exactly under that mount afterwards, and the expectations name the
   workspace of the mount and the task, run, run type, scope hash and context
   references that the parser reads from those bytes. And the witness is taken
   from the start on.
   */
  lemma ConsumptionSucceedsExactly(
      config: Config, ws: seq<State>, ls: seq<Label>, i: nat, n: nat, c: nat, w: nat, expected: Option<Expectations>, observed: Option<Mount>)
    requires Run(config, ws, ls) && i < n < |ws| && ls[i] == BeginConsume(w, expected, observed) && c == |ws[i].calls|
    ensures c < |ws[n].calls| && w < |ws[i].witnesses| && w < |ws[n].witnesses| && ws[n].witnesses[w].state != Available
    ensures ws[n].calls[c].Succeeded? || ws[n].calls[c].Failed? ==>
              (ws[n].calls[c] == Succeeded(w) <==>
                 && ws[i].witnesses[w].state == Available && MountedNow(ws[i], w, observed)
                 && RereadExactly(ws, ls, i, n, c, w) && NamesTheWitness(config, ws[i], w, expected))
    ensures ws[n].calls[c] == Succeeded(w) ==> ws[n].witnesses[w].state == Consumed
  {
    ConsumptionStands(config, ws, ls, i, n, c, w, expected, observed);
    RunKeeps(config, ws, ls, n);
    assert CallOk(ws[n], ws[n].calls[c]);
    RunStep(config, ws, ls, i);
    TakenStaysTaken(config, ws, ls, i + 1, n, w);
  }

  /** Whatever comes out, the end of a consumption leaves its witness consumed and the call over. */
  lemma EndConsumes(config: Config, ws: seq<State>, ls: seq<Label>, n: nat, c: nat)
    requires Run(config, ws, ls) && n < |ls| && ls[n] == FinishConsume(c)
    ensures c < |ws[n].calls| && ws[n].calls[c].Rechecked? && ws[n].calls[c].target < |ws[n + 1].witnesses|
    ensures ws[n + 1].witnesses[ws[n].calls[c].target].state == Consumed
    ensures ws[n + 1].calls[c] == Succeeded(ws[n].calls[c].target) || ws[n + 1].calls[c] == Failed
  {
    RunStep(config, ws, ls, n);
    RunKeeps(config, ws, ls, n);
    assert CallOk(ws[n], ws[n].calls[c]);
  }

  predicate BegunAt(ws: seq<State>, ls: seq<Label>, i: nat, c: nat, w: nat)
    requires i < |ls| && i < |ws|
  {
    ls[i].BeginConsume? && ls[i].target == w && |ws[i].calls| == c
  }

  /** Whoever has hold of a witness, or has consumed it, began with a consumption of it. */
  lemma {:induction false} TakerHasBegun(config: Config, ws: seq<State>, ls: seq<Label>, n: nat, c: nat, w: nat)
    requires Run(config, ws, ls) && n < |ws| && c < |ws[n].calls| && Takes(ws[n].calls[c], w)
    ensures exists i :: 0 <= i < n && BegunAt(ws, ls, i, c, w)
  {
    RunStep(config, ws, ls, n - 1);
    if c < |ws[n - 1].calls| && Takes(ws[n - 1].calls[c], w) {
      TakerHasBegun(config, ws, ls, n - 1, c, w);
    } else {
      assert BegunAt(ws, ls, n - 1, c, w);
    }
  }

  /** So every success, in every run, named what its witness was issued for. */
  lemma SuccessNamesTheWitness(config: Config, ws: seq<State>, ls: seq<Label>, n: nat, c: nat, w: nat)
    requires Run(config, ws, ls) && n < |ws| && c < |ws[n].calls| && ws[n].calls[c] == Succeeded(w)
    ensures exists i :: 0 <= i < n && BegunAt(ws, ls, i, c, w) && NamesTheWitness(config, ws[i], w, ls[i].expected)
  {
    TakerHasBegun(config, ws, ls, n, c, w);
    var i :| 0 <= i < n && BegunAt(ws, ls, i, c, w);
    ConsumptionSucceedsExactly(config, ws, ls, i, n, c, w, ls[i].expected, ls[i].observed);
  }

  // ---------- What an issue takes, exactly ----------

  /** The mount of the authority is the one observed, and no newer authority of it exists. */
  predicate AuthorityMounted(s: State, a: nat, observed: Option<Mount>) {
    a < |s.authorities| && observed == Some(s.authorities[a]) && forall b | a < b < |s.authorities| :: s.authorities[b] != s.authorities[a]
  }

  /**
   In every run a witness is added by nothing but the end of an issue, exactly
   when the authority is mounted then, the bytes are reread unchanged and they
   parse; it is available, and carries these bytes and what the parser reads.
   */
  lemma WitnessesAreIssuedExactly(config: Config, ws: seq<State>, ls: seq<Label>, n: nat)
    requires Run(config, ws, ls) && n < |ls|
    ensures |ws[n + 1].witnesses| > |ws[n].witnesses| <==>
            && ls[n].FinishIssue? && ls[n].call < |ws[n].calls| && ws[n].calls[ls[n].call].Issuing?
            && AuthorityMounted(ws[n], ws[n].calls[ls[n].call].authority, ls[n].observed)
            && ls[n].reread == Some(ws[n].calls[ls[n].call].bytes) && config.parse(ws[n].calls[ls[n].call].bytes).Some?
    ensures |ws[n + 1].witnesses| > |ws[n].witnesses| ==>
              var call := ws[n].calls[ls[n].call];
              ws[n + 1].witnesses == ws[n].witnesses + [Witness(call.authority, call.bytes, config.parse(call.bytes).value, Available)]
  {
    RunStep(config, ws, ls, n);
    RunKeeps(config, ws, ls, n);
    if ls[n].FinishIssue? {
      assert CallOk(ws[n], ws[n].calls[ls[n].call]);
      CurrentIsLatest(ws[n], ws[n].calls[ls[n].call].authority, ls[n].observed);
    }
  }

  /** In every run an issue is begun, rather than refused, exactly for bytes that parse under a mounted authority; a revalidation, for an available witness under one. */
  lemma ReadsBeginExactly(config: Config, ws: seq<State>, ls: seq<Label>, n: nat)
    requires Run(config, ws, ls) && n < |ls|
    ensures ls[n].BeginIssue? ==>
              ws[n + 1].calls == ws[n].calls +
                [if AuthorityMounted(ws[n], ls[n].authority, ls[n].observed) && config.parse(ls[n].bytes).Some?
                 then Issuing(ls[n].authority, ls[n].bytes) else Failed]
    ensures ls[n].BeginRevalidate? ==>
              && ls[n].target < |ws[n].witnesses|
              && ws[n + 1].calls == ws[n].calls +
                [if ws[n].witnesses[ls[n].target].state == Available && MountedNow(ws[n], ls[n].target, ls[n].observed)
                 then Revalidating(ls[n].target) else Failed]
    ensures ls[n].FinishRevalidate? ==>
              && ls[n].call < |ws[n].calls| && ws[n].calls[ls[n].call].Revalidating?
              && var w := ws[n].calls[ls[n].call].target;
              && w < |ws[n].witnesses|
              && ws[n + 1].calls == ws[n].calls[ls[n].call :=
                  if MountedNow(ws[n], w, ls[n].observed) && ls[n].reread == Some(ws[n].witnesses[w].bytes) then Revalidated(w) else Failed]
  {
    RunStep(config, ws, ls, n);
    RunKeeps(config, ws, ls, n);
    match ls[n]
    case BeginIssue(a, _, observed) => CurrentIsLatest(ws[n], a, observed);
    case BeginRevalidate(w, observed) => MountedIsCurrent(ws[n], w, observed);
    case FinishRevalidate(c, _, observed) =>
      assert CallOk(ws[n], ws[n].calls[c]);
      MountedIsCurrent(ws[n], ws[n].calls[c].target, observed);
    case _ =>
  }
}
