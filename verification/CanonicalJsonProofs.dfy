/** The parser recovers every printed value, so equal texts mean equal values and back. */
module CanonicalJsonProofs {
  import opened CanonicalJson
  import opened Sequences
  import opened Sorting

  // ---------- Strings ----------

  lemma HexRoundTrip(d: int)
    requires 0 <= d < 16
    ensures HexValue(HexDigit(d)) == Some(d)
  {
  }

  lemma FourDigits(c: CodeUnit)
    ensures c / 4096 * 4096 + c / 256 % 16 * 256 + c / 16 % 16 * 16 + c % 16 == c
  {
    var a := c / 16;
    var b := a / 16;
    assert c == 16 * a + c % 16 && a == 16 * b + a % 16 && b == 16 * (b / 16) + b % 16;
    assert c / 256 == b && c / 4096 == b / 16;
  }

  lemma ReadUnicodeEscape(c: CodeUnit, rest: Text)
    ensures ReadUnit(UnicodeEscape(c) + rest) == Some((c, rest))
  {
    var s := UnicodeEscape(c) + rest;
    HexRoundTrip(c / 4096);
    HexRoundTrip(c / 256 % 16);
    HexRoundTrip(c / 16 % 16);
    HexRoundTrip(c % 16);
    FourDigits(c);
    assert s[0] == BACKSLASH && s[1] == 0x75 && s[6..] == rest;
    assert s[2] == HexDigit(c / 4096) && s[3] == HexDigit(c / 256 % 16);
    assert s[4] == HexDigit(c / 16 % 16) && s[5] == HexDigit(c % 16);
  }

  lemma ReadShortEscape(c: CodeUnit, e: CodeUnit, rest: Text)
    requires EscapeUnit(c) == [BACKSLASH, e]
    ensures ReadUnit([BACKSLASH, e] + rest) == Some((c, rest))
  {
    var s := [BACKSLASH, e] + rest;
    assert s[0] == BACKSLASH && s[1] == e && s[2..] == rest;
    assert EscapeUnit(c)[1] == e;
  }

  /** A unit that stands for itself, including either half of a surrogate pair. */
  lemma ReadVerbatimUnit(c: CodeUnit, tail: Text)
    requires c >= 0x20 && c != QUOTE && c != BACKSLASH
    ensures ReadUnit([c] + tail) == Some((c, tail))
  {
    assert ([c] + tail)[1..] == tail;
  }

  /** One escaped unit is read back as that unit, whatever follows. */
  lemma ReadEscapedUnit(c: CodeUnit, rest: Text)
    ensures ReadUnit(EscapeUnit(c) + rest) == Some((c, rest))
  {
    if EscapeUnit(c) == UnicodeEscape(c) {
      ReadUnicodeEscape(c, rest);
    } else if |EscapeUnit(c)| == 2 {
      ReadShortEscape(c, EscapeUnit(c)[1], rest);
    } else {
      ReadVerbatimUnit(c, rest);
    }
  }

  lemma ReadStringStep(c: CodeUnit, s: Text, tail: Text, t: Text, rest: Text)
    requires s != [] && s[0] != QUOTE
    requires ReadUnit(s) == Some((c, tail))
    requires ReadString(tail) == Some((t, rest))
    ensures ReadString(s) == Some(([c] + t, rest))
  {
  }

  lemma ReadEnd(rest: Text)
    ensures ReadString([QUOTE] + rest) == Some(([], rest))
  {
    assert ([QUOTE] + rest)[1..] == rest;
  }

  lemma ReadPair(lead: CodeUnit, trail: CodeUnit, tail: Text, t: Text, rest: Text)
    requires IsLead(lead) && IsTrail(trail)
    requires ReadString(tail) == Some((t, rest))
    ensures ReadString([lead, trail] + tail) == Some(([lead, trail] + t, rest))
  {
    var second := [trail] + tail;
    ReadVerbatimUnit(trail, tail);
    ReadStringStep(trail, second, tail, t, rest);
    ReadVerbatimUnit(lead, second);
    ReadStringStep(lead, [lead] + second, second, [trail] + t, rest);
    assert [lead, trail] + tail == [lead] + second;
    assert [lead, trail] + t == [lead] + ([trail] + t);
  }

  lemma ReadSingle(c: CodeUnit, tail: Text, t: Text, rest: Text)
    requires ReadString(tail) == Some((t, rest))
    ensures ReadString(EscapeUnit(c) + tail) == Some(([c] + t, rest))
  {
    ReadEscapedUnit(c, tail);
    assert EscapeUnit(c) != [] && EscapeUnit(c)[0] != QUOTE;
    ReadStringStep(c, EscapeUnit(c) + tail, tail, t, rest);
  }

  /** Reading a string body back: no escape or surrogate pair is lost or invented. */
  lemma {:induction false} ReadEscaped(t: Text, rest: Text)
    ensures ReadString(Escape(t) + ([QUOTE] + rest)) == Some((t, rest))
    decreases |t|
  {
    var end := [QUOTE] + rest;
    if t == [] {
      ReadEnd(rest);
      assert [] + end == end;
    } else if |t| > 1 && IsLead(t[0]) && IsTrail(t[1]) {
      ReadEscaped(t[2..], rest);
      ReadPair(t[0], t[1], Escape(t[2..]) + end, t[2..], rest);
      Assoc([t[0], t[1]], Escape(t[2..]), end);
      assert [t[0], t[1]] + t[2..] == t;
    } else {
      ReadEscaped(t[1..], rest);
      ReadSingle(t[0], Escape(t[1..]) + end, t[1..], rest);
      Assoc(EscapeUnit(t[0]), Escape(t[1..]), end);
      assert [t[0]] + t[1..] == t;
    }
  }

  // ---------- Numbers ----------

  predicate StartsWithDigit(s: Text) {
    s != [] && IsDigit(s[0])
  }

  function Pow10(n: nat): nat {
    if n == 0 then 1 else 10 * Pow10(n - 1)
  }

  /** Reading on from value v through the digits of n shifts v by their number. */
  lemma {:induction false} ReadDecimalFrom(v: nat, n: nat, rest: Text)
    ensures ReadDigits(Decimal(n) + rest, v) == ReadDigits(rest, v * Pow10(|Decimal(n)|) + n)
    decreases n
  {
    if n < 10 {
      var s := Decimal(n) + rest;
      assert s[1..] == rest;
      assert Pow10(1) == 10 * Pow10(0);
    } else {
      var last: Text := [0x30 + n % 10];
      assert Decimal(n) + rest == Decimal(n / 10) + (last + rest);
      ReadDecimalFrom(v, n / 10, last + rest);
      var w := v * Pow10(|Decimal(n / 10)|) + n / 10;
      assert (last + rest)[1..] == rest;
      assert ReadDigits(last + rest, w) == ReadDigits(rest, w * 10 + n % 10);
      assert Pow10(|Decimal(n)|) == 10 * Pow10(|Decimal(n / 10)|);
      ShiftByTen(v, Pow10(|Decimal(n / 10)|), n);
    }
  }

  lemma ShiftByTen(v: nat, p: nat, n: nat)
    ensures (v * p + n / 10) * 10 + n % 10 == v * (10 * p) + n
  {
  }

  lemma ReadDigitsStep(s: Text, v: nat)
    requires StartsWithDigit(s)
    ensures ReadDigits(s, v) == ReadDigits(s[1..], v * 10 + (s[0] - 0x30))
  {
  }

  lemma ReadDigitsEnd(s: Text, v: nat)
    requires !StartsWithDigit(s)
    ensures ReadDigits(s, v) == (v, s)
  {
  }

  lemma ParseDecimal(n: nat, rest: Text)
    requires !StartsWithDigit(rest)
    ensures var s := Decimal(n) + rest; IsDigit(s[0]) && ReadDigits(s[1..], s[0] - 0x30) == (n, rest)
  {
    var s := Decimal(n) + rest;
    ReadDecimalFrom(0, n, rest);
    ReadDigitsStep(s, 0);
    ReadDigitsEnd(rest, n);
  }

  lemma ParseUnsigned(s: Text, n: nat, rest: Text)
    requires StartsWithDigit(s) && ReadDigits(s[1..], s[0] - 0x30) == (n, rest)
    ensures ParseValue(s) == Some((Num(n), rest))
  {
  }

  lemma ParseNegated(s: Text, n: nat, rest: Text)
    requires StartsWithDigit(s) && ReadDigits(s[1..], s[0] - 0x30) == (n, rest)
    ensures ParseValue([MINUS] + s) == Some((Num(0 - n), rest))
  {
    var m := [MINUS] + s;
    assert m[0] == MINUS && m[1] == s[0] && m[2..] == s[1..];
  }

  lemma ParseNumber(n: int, rest: Text)
    requires !StartsWithDigit(rest)
    ensures ParseValue(Number(n) + rest) == Some((Num(n), rest))
  {
    var m: nat := if n < 0 then -n else n;
    ParseDecimal(m, rest);
    ParseUnsigned(Decimal(m) + rest, m, rest);
    ParseNegated(Decimal(m) + rest, m, rest);
    assert [MINUS] + Decimal(m) + rest == [MINUS] + (Decimal(m) + rest);
  }

  // ---------- Sorted keys ----------

  lemma {:induction false} LessTotal(a: Text, b: Text)
    ensures a == b || Less(a, b) || Less(b, a)
    ensures !(Less(a, b) && Less(b, a))
    ensures a == b ==> !Less(a, b)
    decreases |a|
  {
    if a != [] && b != [] {
      LessTotal(a[1..], b[1..]);
      assert a == [a[0]] + a[1..] && b == [b[0]] + b[1..];
    }
  }

  lemma {:induction false} LessTransitive(a: Text, b: Text, c: Text)
    requires Less(a, b) && Less(b, c)
    ensures Less(a, c)
    decreases |a|
  {
    if a != [] && a[0] == b[0] == c[0] {
      LessTransitive(a[1..], b[1..], c[1..]);
    }
  }

  lemma KeyOrderIsTotal()
    ensures TotalPreorder(KEY_ORDER)
    ensures forall s: seq<Text> :: NoTies(KEY_ORDER, s)
  {
    forall a, b ensures KEY_ORDER(a, b) || KEY_ORDER(b, a) { LessTotal(a, b); }
    forall a, b, c | KEY_ORDER(a, b) && KEY_ORDER(b, c) ensures KEY_ORDER(a, c) { NotLessIsTransitive(a, b, c); }
    forall s: seq<Text>, a, b | a in s && b in s && KEY_ORDER(a, b) && KEY_ORDER(b, a) ensures a == b { LessTotal(a, b); }
  }

  lemma NotLessIsTransitive(a: Text, b: Text, c: Text)
    requires !Less(b, a) && !Less(c, b)
    ensures !Less(c, a)
  {
    LessTotal(a, b);
    LessTotal(b, c);
    LessTotal(a, c);
    if a != b && b != c { LessTransitive(a, b, c); }
  }

  lemma DistinctTail(s: seq<Text>)
    requires s != [] && Distinct(s)
    ensures Distinct(s[1..]) && s[0] !in s[1..]
  {
  }

  /** The order in which the keys were enumerated does not survive sorting. */
  lemma SortingForgetsEnumeration(a: seq<Text>, b: seq<Text>)
    requires Distinct(a) && Distinct(b)
    requires forall k :: k in a <==> k in b
    ensures SortKeys(a) == SortKeys(b)
  {
    KeyOrderIsTotal();
    SameMembersSameElements(a, b);
    SortForgetsOrder(KEY_ORDER, a, b);
  }

  lemma SortKeysHolds(s: seq<Text>)
    requires Distinct(s)
    ensures forall k :: k in SortKeys(s) <==> k in s
    ensures Distinct(SortKeys(s))
  {
    forall k ensures k in SortKeys(s) <==> k in s { SameElements(SortKeys(s), s, k); }
    DistinctAlong(s, SortKeys(s));
  }

  /** At their first difference a is smaller, or it ends where b goes on. */
  predicate Before(a: Text, b: Text) {
    (a <= b && a != b) || exists k :: 0 <= k < |a| && k < |b| && a[..k] == b[..k] && a[k] < b[k]
  }

  lemma BeforeTails(a: Text, b: Text)
    requires a != [] && b != [] && a[0] == b[0]
    ensures Before(a[1..], b[1..]) <==> Before(a, b)
  {
    var c, d := a[1..], b[1..];
    assert a == [a[0]] + c && b == [b[0]] + d;
    if k :| 0 <= k < |c| && k < |d| && c[..k] == d[..k] && c[k] < d[k] {
      assert a[..k + 1] == [a[0]] + c[..k] && b[..k + 1] == [b[0]] + d[..k];
      assert a[k + 1] < b[k + 1];
    }
    if k :| 0 <= k < |a| && k < |b| && a[..k] == b[..k] && a[k] < b[k] {
      assert c[..k - 1] == a[..k][1..] && d[..k - 1] == b[..k][1..] && c[k - 1] < d[k - 1];
    }
  }

  lemma BeforeHeads(a: Text, b: Text)
    requires a != [] && b != [] && a[0] != b[0]
    ensures Before(a, b) <==> a[0] < b[0]
  {
    assert a[..0] == b[..0];
    forall k | 0 < k < |a| && k < |b| ensures a[..k] != b[..k] { assert a[..k][0] == a[0] && b[..k][0] == b[0]; }
  }

  lemma {:induction false} LessIsBefore(a: Text, b: Text)
    ensures Less(a, b) <==> Before(a, b)
  {
    if a != [] && b != [] {
      if a[0] == b[0] {
        LessIsBefore(a[1..], b[1..]);
        BeforeTails(a, b);
      } else {
        BeforeHeads(a, b);
      }
    }
  }

  /** Keys are printed in rising code-unit order. */
  lemma KeysRise(s: seq<Text>, i: nat, j: nat)
    requires Distinct(s) && i < j < |s|
    ensures |SortKeys(s)| == |s| && Before(SortKeys(s)[i], SortKeys(s)[j])
  {
    KeyOrderIsTotal();
    StableSortHolds(KEY_ORDER, s);
    SortKeysHolds(s);
    var a, b := SortKeys(s)[i], SortKeys(s)[j];
    assert KEY_ORDER(a, b);
    LessTotal(a, b);
    LessIsBefore(a, b);
  }

  // ---------- The round trip ----------

  /** The fields an object means, limited to the listed keys. */
  function FieldsOf(ms: seq<Member>, keys: seq<Text>): map<Text, Value>
    requires forall k | k in keys :: k in Keys(ms)
  {
    map k | k in keys :: Meaning(ms[IndexOf(ms, k)].value)
  }

  lemma FieldsOfAll(ms: seq<Member>, keys: seq<Text>)
    requires forall k :: k in keys <==> k in Keys(ms)
    ensures Meaning(DObj(ms)) == Obj(FieldsOf(ms, keys))
  {
    assert FieldsOf(ms, keys) == map k | k in Keys(ms) :: Meaning(ms[IndexOf(ms, k)].value);
  }

  lemma FieldsOfFirst(ms: seq<Member>, keys: seq<Text>, v: Value)
    requires keys != [] && forall k | k in keys :: k in Keys(ms)
    requires v == Meaning(ms[IndexOf(ms, keys[0])].value)
    ensures |keys| == 1 ==> FieldsOf(ms, keys) == map[keys[0] := v]
    ensures FieldsOf(ms, keys) == FieldsOf(ms, keys[1..])[keys[0] := v]
    ensures FieldsOf(ms, keys[1..]).Keys == set k | k in keys[1..]
  {
    assert forall k :: k in keys <==> k == keys[0] || k in keys[1..];
  }

  lemma CanonicalStart(d: Data)
    ensures Canonical(d) != [] && Canonical(d)[0] != CLOSE_BRACKET
  {
  }

  lemma ParseLiteral(d: Data, rest: Text)
    requires d.DNull? || d.DBool?
    ensures ParseValue(Canonical(d) + rest) == Some((Meaning(d), rest))
  {
    var s := Canonical(d) + rest;
    assert s[|Canonical(d)|..] == rest;
    assert Canonical(d) <= s;
  }

  lemma ParseQuoted(t: Text, rest: Text)
    ensures ParseValue(Quote(t) + rest) == Some((Str(t), rest))
  {
    ReadEscaped(t, rest);
    assert (Quote(t) + rest)[1..] == Escape(t) + ([QUOTE] + rest);
  }

  lemma ParseBracketed(body: Text, vs: seq<Value>, rest: Text)
    requires body != [] && body[0] != CLOSE_BRACKET
    requires ParseItems(body) == Some((vs, rest))
    ensures ParseValue([OPEN_BRACKET] + body) == Some((Arr(vs), rest))
  {
    assert ([OPEN_BRACKET] + body)[1..] == body;
  }

  lemma ParseBraced(body: Text, fields: map<Text, Value>, rest: Text)
    requires body != [] && body[0] != CLOSE_BRACE
    requires ParseMembers(body) == Some((fields, rest))
    ensures ParseValue([OPEN_BRACE] + body) == Some((Obj(fields), rest))
  {
    assert ([OPEN_BRACE] + body)[1..] == body;
  }

  lemma ParseEmpty(rest: Text)
    ensures ParseValue([OPEN_BRACKET] + [] + [CLOSE_BRACKET] + rest) == Some((Arr([]), rest))
    ensures ParseValue([OPEN_BRACE] + [] + [CLOSE_BRACE] + rest) == Some((Obj(map[]), rest))
  {
    assert ([OPEN_BRACKET] + [] + [CLOSE_BRACKET] + rest)[2..] == rest;
    assert ([OPEN_BRACE] + [] + [CLOSE_BRACE] + rest)[2..] == rest;
  }

  function Meanings(items: seq<Data>): seq<Value> {
    seq(|items|, i requires 0 <= i < |items| => Meaning(items[i]))
  }

  /** Parsing a printed value gives back its meaning and exactly what followed it. */
  lemma {:induction false} RoundTrip(d: Data, rest: Text)
    requires WellFormed(d)
    requires !StartsWithDigit(rest)
    ensures ParseValue(Canonical(d) + rest) == Some((Meaning(d), rest))
    decreases d, 1
  {
    match d
    case DNull => ParseLiteral(d, rest);
    case DBool(b) => ParseLiteral(d, rest);
    case DNum(n) => ParseNumber(n, rest);
    case DStr(t) => ParseQuoted(t, rest);
    case DArr(items) => RoundTripArray(d, rest);
    case DObj(ms) => RoundTripObject(d, rest);
  }

  lemma {:induction false} RoundTripArray(d: Data, rest: Text)
    requires d.DArr? && WellFormed(d)
    ensures ParseValue(Canonical(d) + rest) == Some((Meaning(d), rest))
    decreases d, 0
  {
    var items := d.items;
    if items == [] {
      ParseEmpty(rest);
      assert Meaning(d) == Arr([]);
    } else {
      var body := CanonicalItems(items) + [CLOSE_BRACKET] + rest;
      CanonicalStart(items[0]);
      RoundTripItems(items, rest);
      ParseBracketed(body, Meanings(items), rest);
      assert Canonical(d) + rest == [OPEN_BRACKET] + body;
    }
  }

  lemma {:induction false} RoundTripObject(d: Data, rest: Text)
    requires d.DObj? && WellFormed(d)
    ensures ParseValue(Canonical(d) + rest) == Some((Meaning(d), rest))
    decreases d, 0
  {
    var ms := d.members;
    var keys := SortKeys(Keys(ms));
    SortKeysHolds(Keys(ms));
    FieldsOfAll(ms, keys);
    if keys == [] {
      ParseEmpty(rest);
      assert FieldsOf(ms, keys) == map[];
    } else {
      var members := CanonicalMembers(ms, keys);
      RoundTripMembers(ms, keys, rest);
      ParseBraced(members + [CLOSE_BRACE] + rest, FieldsOf(ms, keys), rest);
      Assoc([OPEN_BRACE] + members, [CLOSE_BRACE], rest);
      Assoc([OPEN_BRACE], members, [CLOSE_BRACE] + rest);
      Assoc(members, [CLOSE_BRACE], rest);
    }
  }

  /** One value, then the end of the array. */
  lemma LastItem(s: Text, v: Value, after: Text)
    requires after != [] && after[0] == CLOSE_BRACKET && ParseValue(s) == Some((v, after))
    ensures ParseItems(s) == Some(([v], after[1..]))
  {
  }

  /** One value, then a comma and more of them. */
  lemma ItemThenRest(s: Text, v: Value, after: Text, vs: seq<Value>, rest: Text)
    requires after != [] && after[0] == COMMA && ParseValue(s) == Some((v, after))
    requires ParseItems(after[1..]) == Some((vs, rest))
    ensures ParseItems(s) == Some(([v] + vs, rest))
  {
  }

  /** Of four pieces it does not matter how the last three are joined. */
  lemma FourPieces(a: Text, b: Text, c: Text, d: Text)
    ensures a + b + c + d == a + (b + (c + d))
  {
    Assoc(a + b, c, d);
    Assoc(a, b, c + d);
  }

  /** The text of several items: the first, a comma, and the text of the others. */
  lemma ItemsText(items: seq<Data>, end: Text)
    requires |items| > 1
    ensures CanonicalItems(items) + end == Canonical(items[0]) + ([COMMA] + (CanonicalItems(items[1..]) + end))
  {
    FourPieces(Canonical(items[0]), [COMMA], CanonicalItems(items[1..]), end);
  }

  lemma FirstMeaning(items: seq<Data>)
    requires items != []
    ensures Meanings(items) == [Meaning(items[0])] + Meanings(items[1..])
  {
  }

  lemma {:induction false} RoundTripItems(items: seq<Data>, rest: Text)
    requires items != [] && forall x | x in items :: WellFormed(x)
    ensures ParseItems(CanonicalItems(items) + [CLOSE_BRACKET] + rest) == Some((Meanings(items), rest))
    decreases items, 0
  {
    var v := Meaning(items[0]);
    FirstMeaning(items);
    Assoc(CanonicalItems(items), [CLOSE_BRACKET], rest);
    if |items| == 1 {
      var after := [CLOSE_BRACKET] + rest;
      RoundTrip(items[0], after);
      LastItem(Canonical(items[0]) + after, v, after);
      assert after[1..] == rest && Meanings(items) == [v];
    } else {
      var tail := CanonicalItems(items[1..]) + [CLOSE_BRACKET] + rest;
      Assoc(CanonicalItems(items[1..]), [CLOSE_BRACKET], rest);
      ItemsText(items, [CLOSE_BRACKET] + rest);
      RoundTrip(items[0], [COMMA] + tail);
      assert ([COMMA] + tail)[1..] == tail;
      RoundTripItems(items[1..], rest);
      ItemThenRest(Canonical(items[0]) + ([COMMA] + tail), v, [COMMA] + tail, Meanings(items[1..]), rest);
    }
  }

  lemma {:induction false} RoundTripMembers(ms: seq<Member>, keys: seq<Text>, rest: Text)
    requires keys != [] && Distinct(keys)
    requires forall k | k in keys :: k in Keys(ms)
    requires forall m | m in ms :: WellFormed(m.value)
    ensures ParseMembers(CanonicalMembers(ms, keys) + [CLOSE_BRACE] + rest) == Some((FieldsOf(ms, keys), rest))
    decreases ms, |keys|
  {
    var d := ms[IndexOf(ms, keys[0])].value;
    DistinctTail(keys);
    var others := CanonicalMembers(ms, keys[1..]);
    var after := if |keys| == 1 then [CLOSE_BRACE] + rest else [COMMA] + (others + [CLOSE_BRACE] + rest);
    RoundTrip(d, after);
    ReadMember(keys[0], Canonical(d) + after, Meaning(d), after);
    MemberThenRest(ms, keys, d, others, rest);
    FieldsOfFirst(ms, keys, Meaning(d));
    if |keys| == 1 {
      assert after[1..] == rest;
    } else {
      assert after[1..] == others + [CLOSE_BRACE] + rest;
      RoundTripMembers(ms, keys[1..], rest);
    }
  }

  lemma MemberThenRest(ms: seq<Member>, keys: seq<Text>, d: Data, others: Text, rest: Text)
    requires keys != [] && forall k | k in keys :: k in Keys(ms)
    requires d == ms[IndexOf(ms, keys[0])].value
    requires others == CanonicalMembers(ms, keys[1..])
    ensures var after := if |keys| == 1 then [CLOSE_BRACE] + rest else [COMMA] + (others + [CLOSE_BRACE] + rest);
            CanonicalMembers(ms, keys) + [CLOSE_BRACE] + rest ==
            Quote(keys[0]) + ([COLON] + (Canonical(d) + after))
  {
    var q, c := Quote(keys[0]) + [COLON], Canonical(d);
    var member := q + c;
    var end := [CLOSE_BRACE] + rest;
    if |keys| == 1 {
      Assoc(member, [CLOSE_BRACE], rest);
      Assoc(q, c, end);
      Assoc(Quote(keys[0]), [COLON], c + end);
    } else {
      Assoc(others, [CLOSE_BRACE], rest);
      Assoc(member + [COMMA] + others, [CLOSE_BRACE], rest);
      Assoc(member + [COMMA], others, end);
      Assoc(member, [COMMA], others + end);
      Assoc(q, c, [COMMA] + (others + end));
      Assoc(Quote(keys[0]), [COLON], c + ([COMMA] + (others + end)));
    }
  }

  /** The first member of an object text, up to the separator after its value. */
  lemma ReadMember(key: Text, text: Text, v: Value, after: Text)
    requires ParseValue(text) == Some((v, after)) && after != []
    ensures ParseMembers(Quote(key) + ([COLON] + text)) ==
            if after[0] == CLOSE_BRACE then Some((map[key := v], after[1..]))
            else if after[0] != COMMA then None
            else
              match ParseMembers(after[1..])
              case None => None
              case Some((fields, end)) => if key in fields then None else Some((fields[key := v], end))
  {
    var s := Quote(key) + ([COLON] + text);
    assert s[1..] == Escape(key) + ([QUOTE] + ([COLON] + text));
    ReadEscaped(key, [COLON] + text);
    assert ([COLON] + text)[1..] == text;
  }

  // ---------- Identity ----------

  lemma {:induction false} SameMeaningSameText(a: Data, b: Data)
    requires WellFormed(a) && WellFormed(b) && Meaning(a) == Meaning(b)
    ensures Canonical(a) == Canonical(b)
    decreases a, 0
  {
    match a
    case DArr(items) =>
      forall i | 0 <= i < |items| ensures Meaning(items[i]) == Meaning(b.items[i]) {
        assert Meaning(a).items[i] == Meaning(b).items[i];
      }
      SameItemsSameText(items, b.items);
    case DObj(ms) =>
      var keys := SortKeys(Keys(ms));
      assert Meaning(a).fields.Keys == Meaning(b).fields.Keys;
      assert forall k :: k in Keys(ms) <==> k in Meaning(a).fields;
      assert forall k :: k in Keys(b.members) <==> k in Meaning(b).fields;
      SortingForgetsEnumeration(Keys(ms), Keys(b.members));
      SortKeysHolds(Keys(ms));
      forall k | k in keys
        ensures k in Keys(ms) && k in Keys(b.members)
        ensures Meaning(ms[IndexOf(ms, k)].value) == Meaning(b.members[IndexOf(b.members, k)].value)
      {
        assert Meaning(a).fields[k] == Meaning(b).fields[k];
      }
      SameMembersSameText(ms, b.members, keys);
    case _ =>
  }

  lemma {:induction false} SameItemsSameText(a: seq<Data>, b: seq<Data>)
    requires |a| == |b|
    requires forall i | 0 <= i < |a| :: WellFormed(a[i]) && WellFormed(b[i]) && Meaning(a[i]) == Meaning(b[i])
    ensures CanonicalItems(a) == CanonicalItems(b)
    decreases a, 0
  {
    if a != [] {
      SameMeaningSameText(a[0], b[0]);
      SameItemsSameText(a[1..], b[1..]);
    }
  }

  lemma {:induction false} SameMembersSameText(a: seq<Member>, b: seq<Member>, keys: seq<Text>)
    requires forall m | m in a :: WellFormed(m.value)
    requires forall m | m in b :: WellFormed(m.value)
    requires forall k | k in keys :: k in Keys(a) && k in Keys(b)
    requires forall k | k in keys :: Meaning(a[IndexOf(a, k)].value) == Meaning(b[IndexOf(b, k)].value)
    ensures CanonicalMembers(a, keys) == CanonicalMembers(b, keys)
    decreases a, |keys|
  {
    if keys != [] {
      assert keys[0] in keys;
      assert a[IndexOf(a, keys[0])] in a && b[IndexOf(b, keys[0])] in b;
      SameMeaningSameText(a[IndexOf(a, keys[0])].value, b[IndexOf(b, keys[0])].value);
      SameMembersSameText(a, b, keys[1..]);
    }
  }

  /** sameCanonical: the texts agree exactly when the two values are the same JSON value. */
  lemma SameCanonicalIsSameValue(a: Data, b: Data)
    requires WellFormed(a) && WellFormed(b)
    ensures Canonical(a) == Canonical(b) <==> Meaning(a) == Meaning(b)
  {
    RoundTrip(a, []);
    RoundTrip(b, []);
    assert Canonical(a) + [] == Canonical(a) && Canonical(b) + [] == Canonical(b);
    if Meaning(a) == Meaning(b) {
      SameMeaningSameText(a, b);
    }
  }

  /**
   No printed text is a proper prefix of another value's text followed by a
   non-digit, so texts can be concatenated with separators without ambiguity.
   */
  lemma PrintedTextsAreSeparable(a: Data, b: Data, restA: Text, restB: Text)
    requires WellFormed(a) && WellFormed(b)
    requires !StartsWithDigit(restA) && !StartsWithDigit(restB)
    requires Canonical(a) + restA == Canonical(b) + restB
    ensures Meaning(a) == Meaning(b) && restA == restB
  {
    RoundTrip(a, restA);
    RoundTrip(b, restB);
  }
}
